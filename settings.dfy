/** Paper sizes, the two interface languages and their string tables, and the
    generator's settings record (src/settings.rs; the same tables appear in
    hell-core/src/data.rs). */
module Settings {
  import opened Prelude

  datatype PaperSize = A4

  /** A page size in millimetres. */
  datatype Size = Size(width: real, height: real)

  function DefaultPaperSize(): PaperSize {
    A4
  }

  /** `impl Into<Size> for PaperSize`. */
  function ToSize(p: PaperSize): Size {
    match p
    case A4 => Size(210.0, 297.0)
  }

  datatype Language = English | Bulgarian

  function DefaultLanguage(): Language {
    English
  }

  /** The first bullet character of an answer list. */
  function FirstChar(l: Language): char {
    match l
    case English => 'a'
    case Bulgarian => '\U{0430}'
  }

  function MultipleAnswersHint(l: Language): string {
    match l
    case English => "Multiple answers"
    case Bulgarian => "Повече от 1 верен отговор"
  }

  /** What `format_points` appends after the number. */
  function PointsUnit(l: Language): string {
    match l
    case English => "pt"
    case Bulgarian => "т"
  }

  /** `format!("__/{points}pt")` or `format!("__/{points}т")`. */
  function FormatPoints(l: Language, points: u8): string {
    "__/" + Dec(points) + PointsUnit(l)
  }

  function InputName(l: Language): string {
    match l
    case English => "Name"
    case Bulgarian => "Име"
  }

  function InputClass(l: Language): string {
    match l
    case English => "Class"
    case Bulgarian => "Клас"
  }

  /** The language strings the generator reads whose tables are not part of
      this model (`input_class_num`, `get_examiner`, `get_points_sum`). */
  datatype ExtraStrings = ExtraStrings(inputClassNum: string, examiner: string, pointsSum: string)

  /** The project's settings. `output` is a declared field; `max_questions`
      and `randomize_questions` are read by the generator but declared
      nowhere, so they carry no default of their own. */
  datatype Settings = Settings(
    showHints: bool,
    paperSize: PaperSize,
    language: Language,
    fontsPath: string,
    font: string,
    output: string,
    maxQuestions: nat,
    randomizeQuestions: bool)

  /** `Settings::default()`. `max_questions` and `randomize_questions` are
      not declared on the struct, so their values are parameters here. */
  function DefaultSettings(maxQuestions: nat, randomizeQuestions: bool): (s: Settings)
    ensures s.output == "out.pdf" && s.fontsPath == "" && s.font == ""
    ensures !s.showHints && s.language == English && s.paperSize == A4
    ensures s.maxQuestions == maxQuestions && s.randomizeQuestions == randomizeQuestions
  {
    Settings(false, DefaultPaperSize(), DefaultLanguage(), "", "", "out.pdf", maxQuestions, randomizeQuestions)
  }

  /** Reads a `format_points` string back: the inverse of `FormatPoints`. */
  function ParsePoints(l: Language, s: string): Option<nat> {
    var u := PointsUnit(l);
    if |s| >= 4 + |u| && s[..3] == "__/" && s[|s| - |u|..] == u && AllDigits(s[3..|s| - |u|])
    then Some(ParseDec(s[3..|s| - |u|]))
    else None
  }

  /** The points shown beside a question title can be read back exactly. */
  lemma FormatPointsRoundTrip(l: Language, points: u8)
    ensures ParsePoints(l, FormatPoints(l, points)) == Some(points)
  {
    var s := FormatPoints(l, points);
    var u := PointsUnit(l);
    assert s[3..|s| - |u|] == Dec(points);
    assert s[|s| - |u|..] == u;
    ParseDecRoundTrip(points);
  }

  /** The per-language tables the layout reads. */
  lemma LanguageTables()
    ensures DefaultLanguage() == English && DefaultPaperSize() == A4
    ensures FirstChar(English) as int == 0x61 && FirstChar(Bulgarian) as int == 0x430
    ensures MultipleAnswersHint(English) == "Multiple answers"
    ensures MultipleAnswersHint(Bulgarian) == "Повече от 1 верен отговор"
    ensures InputName(English) == "Name" && InputName(Bulgarian) == "Име"
    ensures InputClass(English) == "Class" && InputClass(Bulgarian) == "Клас"
    ensures forall p: u8 :: FormatPoints(English, p) == "__/" + Dec(p) + "pt"
    ensures forall p: u8 :: FormatPoints(Bulgarian, p) == "__/" + Dec(p) + "т"
  {
  }

  /** A4 is 210 mm by 297 mm, portrait. */
  lemma A4Dimensions()
    ensures ToSize(DefaultPaperSize()) == Size(210.0, 297.0)
    ensures ToSize(A4).width < ToSize(A4).height
  {
  }

  function EnglishAlphabet(): string {
    "abcdefghijklmnopqrstuvwxyz"
  }

  /** The thirty letters of the Bulgarian alphabet; it has no ы and no э. */
  function BulgarianAlphabet(): string {
    "абвгдежзийклмнопрстуфхцчшщъьюя"
  }

  function Alphabet(l: Language): string {
    match l
    case English => EnglishAlphabet()
    case Bulgarian => BulgarianAlphabet()
  }

  /** Consecutive code points from `FirstChar` spell the language's alphabet
      for the first 26 bullets (27 for Bulgarian, up to ъ). */
  lemma BulletsFollowAlphabet(l: Language, k: nat)
    requires k < (if l == English then 26 else 27)
    ensures IsScalar(FirstChar(l) as int + k)
    ensures (FirstChar(l) as int + k) as char == Alphabet(l)[k]
  {
    var a := Alphabet(l);
    if l == English {
      assert forall j :: 0 <= j < 26 ==> a[j] as int == 0x61 + j;
    } else {
      assert forall j :: 0 <= j < 27 ==> a[j] as int == 0x430 + j;
    }
  }

  /** The 28th Bulgarian bullet is ы, which is not a Bulgarian letter. */
  lemma BulgarianBulletsLeaveAlphabet()
    ensures (FirstChar(Bulgarian) as int + 27) as char !in BulgarianAlphabet()
  {
    var a := BulgarianAlphabet();
    assert forall j :: 0 <= j < |a| ==> a[j] != '\U{044B}';
  }
}

/** How a project file's tables become questions and settings: the serde
    defaults declared on the fields and the order in which the untagged
    `Question` enum tries its variants (src/data.rs, hell-core/src/data.rs,
    src/settings.rs). Unknown keys are ignored, as serde does by default. */
module Decode {
  import opened Prelude
  import opened Settings
  import opened Data

  /** A value of the project file's key/value tree. */
  datatype Value = Str(s: string) | Int(n: int) | Bool(b: bool) | Arr(items: seq<Value>)

  type Table = map<string, Value>

  function StrList(vs: seq<Value>): (r: Option<seq<string>>)
    ensures r.Some? ==> |r.value| == |vs|
  {
    if vs == [] then Some([])
    else match (vs[0], StrList(vs[1..]))
      case (Str(s), Some(rest)) => Some([s] + rest)
      case _ => None
  }

  function StrField(t: Table, key: string): Option<string> {
    if key in t && t[key].Str? then Some(t[key].s) else None
  }

  function StrListField(t: Table, key: string): Option<seq<string>> {
    if key in t && t[key].Arr? then StrList(t[key].items) else None
  }

  /** An integer key that must fit an unsigned type below `bound`. */
  function UIntField(t: Table, key: string, bound: nat): (r: Option<nat>)
    ensures r.Some? ==> r.value < bound
  {
    if key in t && t[key].Int? && 0 <= t[key].n < bound then Some(t[key].n) else None
  }

  /** `#[serde(default = "default_points")] points: u8`. */
  function PointsField(t: Table): (r: Option<u8>)
    ensures "points" !in t ==> r == Some(DefaultPoints())
  {
    if "points" !in t then Some(DefaultPoints())
    else match UIntField(t, "points", 0x100)
      case Some(p) => Some(p)
      case None => None
  }

  function DecodeSelection(t: Table): Option<SelectionQuestion> {
    match (StrField(t, "question"), StrListField(t, "correct"), StrListField(t, "incorrect"), PointsField(t))
    case (Some(q), Some(c), Some(i), Some(p)) => Some(SelectionQuestion(q, c, i, p))
    case _ => None
  }

  function DecodeInput(t: Table): Option<InputQuestion> {
    match (StrField(t, "question"), UIntField(t, "number_of_lines", 0x1_0000), PointsField(t))
    case (Some(q), Some(n), Some(p)) => Some(InputQuestion(q, n, p))
    case _ => None
  }

  /** `#[serde(untagged)] enum Question`: Selection is tried first, Input
      only when the table is not a Selection. */
  function DecodeQuestion(t: Table): Option<Question> {
    match DecodeSelection(t)
    case Some(s) => Some(Selection(s))
    case None =>
      match DecodeInput(t)
      case Some(i) => Some(Input(i))
      case None => None
  }

  /** The variant order: a table reads as an Input question exactly when it
      does not read as a Selection and does read as an Input, and any table
      that reads as a Selection becomes one, whatever else it holds. */
  lemma VariantOrder(t: Table)
    ensures DecodeSelection(t).Some? ==> DecodeQuestion(t) == Some(Selection(DecodeSelection(t).value))
    ensures (DecodeQuestion(t).Some? && DecodeQuestion(t).value.Input?)
            <==> (DecodeSelection(t).None? && DecodeInput(t).Some?)
    ensures DecodeQuestion(t).None? <==> (DecodeSelection(t).None? && DecodeInput(t).None?)
  {
  }

  /** A table with both the Selection keys and `number_of_lines` is a Selection. */
  lemma AmbiguousTableIsSelection()
    ensures
      var t := map["question" := Str("q"), "correct" := Arr([]), "incorrect" := Arr([]),
                   "number_of_lines" := Int(3)];
      DecodeQuestion(t) == Some(Selection(SelectionQuestion("q", [], [], 1)))
  {
  }

  /** A question without a `points` key is worth one point, whichever variant it is. */
  lemma MissingPointsIsOne(t: Table)
    requires "points" !in t && DecodeQuestion(t).Some?
    ensures GetPoints(DecodeQuestion(t).value) == 1
  {
  }

  function StrValues(ss: seq<string>): (vs: seq<Value>)
    ensures |vs| == |ss|
  {
    if ss == [] then [] else [Str(ss[0])] + StrValues(ss[1..])
  }

  lemma {:induction false} StrListRoundTrip(ss: seq<string>)
    ensures StrList(StrValues(ss)) == Some(ss)
  {
    if ss != [] {
      StrListRoundTrip(ss[1..]);
      var vs := StrValues(ss);
      assert vs[0] == Str(ss[0]) && vs[1..] == StrValues(ss[1..]);
      assert StrList(vs) == Some([ss[0]] + ss[1..]);
      assert [ss[0]] + ss[1..] == ss;
    }
  }

  /** The table a project file holds for a question. */
  function QuestionTable(q: Question): Table {
    match q
    case Selection(s) =>
      map["question" := Str(s.question), "correct" := Arr(StrValues(s.correct)),
          "incorrect" := Arr(StrValues(s.incorrect)), "points" := Int(s.points)]
    case Input(i) =>
      map["question" := Str(i.question), "number_of_lines" := Int(i.numberOfLines),
          "points" := Int(i.points)]
  }

  /** Reading a question's table back gives the same question, variant included. */
  lemma QuestionRoundTrip(q: Question)
    ensures DecodeQuestion(QuestionTable(q)) == Some(q)
  {
    match q
    case Selection(s) =>
      StrListRoundTrip(s.correct);
      StrListRoundTrip(s.incorrect);
    case Input(i) =>
  }

  function DecodeLanguage(v: Value): Option<Language> {
    if v == Str("English") then Some(English)
    else if v == Str("Bulgarian") then Some(Bulgarian)
    else None
  }

  function DecodePaperSize(v: Value): Option<PaperSize> {
    if v == Str("A4") then Some(A4) else None
  }

  /** The settings record of the older crate (hell-core/src/data.rs:120-130):
      hints, paper size, language, fonts directory and font name only. */
  datatype LegacySettings = LegacySettings(
    showHints: bool, paperSize: PaperSize, language: Language, fontsPath: string, font: string)

  /** The older crate's `Settings` as serde reads it: `show_hints` defaults
      to true and `language` to English; `paper_size`, `fonts_path` and `font`
      are required. */
  function DecodeLegacySettings(t: Table): Option<LegacySettings> {
    var hints :=
      if "show_hints" !in t then Some(DefaultBoolTrue())
      else if t["show_hints"].Bool? then Some(t["show_hints"].b) else None;
    var paper := if "paper_size" in t then DecodePaperSize(t["paper_size"]) else None;
    var language := if "language" !in t then Some(DefaultLanguage()) else DecodeLanguage(t["language"]);
    var fontsPath, font := StrField(t, "fonts_path"), StrField(t, "font");
    if hints.Some? && paper.Some? && language.Some? && fontsPath.Some? && font.Some?
    then Some(LegacySettings(hints.value, paper.value, language.value, fontsPath.value, font.value))
    else None
  }

  /** `Settings` as serde reads it: the fields shared with the older crate as
      there, plus a required `output`. `max_questions` and
      `randomize_questions` have no declaration in the settings file; a key
      that is present must have the right type, and a missing one reads as
      the value given (`maxQuestions`, `randomize`). */
  function DecodeSettings(t: Table, maxQuestions: nat, randomize: bool): Option<Settings> {
    var shared := DecodeLegacySettings(t);
    var output := StrField(t, "output");
    var randomizeKey :=
      if "randomize_questions" !in t then Some(randomize)
      else if t["randomize_questions"].Bool? then Some(t["randomize_questions"].b) else None;
    var maxKey :=
      if "max_questions" !in t then Some(maxQuestions)
      else if t["max_questions"].Int? && t["max_questions"].n >= 0 then Some(t["max_questions"].n as nat) else None;
    if shared.Some? && output.Some? && maxKey.Some? && randomizeKey.Some?
    then Some(Settings(shared.value.showHints, shared.value.paperSize, shared.value.language,
                       shared.value.fontsPath, shared.value.font, output.value, maxKey.value, randomizeKey.value))
    else None
  }

  /** Missing `show_hints` reads as true and missing `language` as English;
      `Settings::default()` instead turns hints off. A missing
      `max_questions` or `randomize_questions` reads as the value given;
      `output` is required and read as given. */
  lemma SettingsDefaults(t: Table, m: nat, r: bool)
    requires DecodeSettings(t, m, r).Some?
    ensures "show_hints" !in t ==> DecodeSettings(t, m, r).value.showHints
    ensures "language" !in t ==> DecodeSettings(t, m, r).value.language == English
    ensures "show_hints" !in t ==> DecodeSettings(t, m, r).value.showHints != DefaultSettings(m, r).showHints
    ensures "max_questions" !in t ==> DecodeSettings(t, m, r).value.maxQuestions == m
    ensures "randomize_questions" !in t ==> DecodeSettings(t, m, r).value.randomizeQuestions == r
    ensures StrField(t, "output") == Some(DecodeSettings(t, m, r).value.output)
  {
  }

  /** The older crate's defaults: missing `show_hints` reads as true and
      missing `language` as English. */
  lemma LegacySettingsDefaults(t: Table)
    requires DecodeLegacySettings(t).Some?
    ensures "show_hints" !in t ==> DecodeLegacySettings(t).value.showHints
    ensures "language" !in t ==> DecodeLegacySettings(t).value.language == English
  {
  }

  /** Both crates read the shared keys alike. A table the newer crate accepts
      is accepted by the older one with the same shared fields; a table the
      older crate accepts is accepted by the newer one exactly when it has a
      string `output` and well-typed (or no) `max_questions` and
      `randomize_questions`. */
  lemma DecodersAgree(t: Table, m: nat, r: bool)
    ensures DecodeSettings(t, m, r).Some? ==>
              var n, o := DecodeSettings(t, m, r).value, DecodeLegacySettings(t);
              && o.Some?
              && n.showHints == o.value.showHints && n.paperSize == o.value.paperSize
              && n.language == o.value.language && n.fontsPath == o.value.fontsPath
              && n.font == o.value.font && Some(n.output) == StrField(t, "output")
    ensures DecodeLegacySettings(t).Some? ==>
              (DecodeSettings(t, m, r).Some? <==>
                 && StrField(t, "output").Some?
                 && ("max_questions" in t ==> t["max_questions"].Int? && t["max_questions"].n >= 0)
                 && ("randomize_questions" in t ==> t["randomize_questions"].Bool?))
  {
  }

  /** A table with only `paper_size`, `fonts_path` and `font` is a complete
      settings table for the older crate, but the newer crate refuses it for
      want of `output`. */
  lemma MinimalLegacyTable()
    ensures
      var t := map["paper_size" := Str("A4"), "fonts_path" := Str("f"), "font" := Str("x")];
      && DecodeLegacySettings(t) == Some(LegacySettings(true, A4, English, "f", "x"))
      && DecodeSettings(t, 0, false).None?
  {
  }
}

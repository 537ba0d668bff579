/** The older generator of the `hell-core` crate (hell-core/src/main.rs):
    the same composition as the current one, but with no hint on titles, no
    class-number field in the header, no footer, and every question rendered
    in declared order. It shares the question, settings and list types. */
module HellCore {
  import opened Prelude
  import opened Settings
  import opened Data
  import opened PdfElements
  import opened Backend
  import opened PdfGen

  /* ---------------- punctuation ---------------- */

  predicate IsPunctuation(c: char) {
    c == '?' || c == '!' || c == '.'
  }

  /** `ends_with_punctuation`: the last character is `?`, `!` or `.`; an
      empty string has no last character and does not end with one. */
  function EndsWithPunctuation(s: string): (b: bool)
    ensures b <==> |s| > 0 && IsPunctuation(s[|s| - 1])
  {
    if |s| == 0 then false else IsPunctuation(s[|s| - 1])
  }

  /** Only the last character matters: whatever comes before it, appending
      `c` gives a string that ends with punctuation exactly when `c` is one. */
  lemma LastCharDecides(s: string, c: char)
    ensures EndsWithPunctuation(s + [c]) <==> IsPunctuation(c)
    ensures !EndsWithPunctuation("")
    ensures EndsWithPunctuation(s + ['?']) && EndsWithPunctuation(s + ['!']) && EndsWithPunctuation(s + ['.'])
  {
    assert (s + [c])[|s + [c]| - 1] == c;
    assert (s + ['?'])[|s|] == '?' && (s + ['!'])[|s|] == '!' && (s + ['.'])[|s|] == '.';
  }

  /* ---------------- question title line ---------------- */

  /** `gen_points_element` of hell-core: `"{i + 1}. {title}"`, never a hint,
      beside the right-aligned points in a Split 0.9. */
  function LegacyPointsElement(i: nat, q: Question, l: Language): Elem {
    Split(Plain(NumberPrefix(i) + GetTitle(q)),
          Paragraph(FormatPoints(l, GetPoints(q)), None, AlignRight),
          0.9)
  }

  /** The settings under which the current title row is the legacy one. */
  function HintsOff(s: Settings): Settings {
    s.(showHints := false)
  }

  /** The legacy title row is the current one with hints switched off, and
      for Input questions, or Selections with fewer than two correct answers,
      it is the current row whatever the settings say. */
  lemma LegacyTitleHasNoHint(i: nat, q: Question, s: Settings)
    ensures LegacyPointsElement(i, q, s.language) == PointsElement(i, q, HintsOff(s))
    ensures !(q.Selection? && |q.sel.correct| >= 2) ==> LegacyPointsElement(i, q, s.language) == PointsElement(i, q, s)
    ensures LeadingDigits(LegacyPointsElement(i, q, s.language).left.text) == Dec(i + 1)
  {
    HintGating(i, q, HintsOff(s));
    HintGating(i, q, s);
    TitleNumber(i, q, HintsOff(s));
  }

  /* ---------------- header band ---------------- */

  function LegacyHeaderElems(p: Project): seq<Elem> {
    var l := p.settings.language;
    var name := Paragraph(InputName(l) + ": " + Repeat('_', 40), Some(14), AlignLeft);
    var classField := Paragraph(InputClass(l) + ": " + Repeat('_', 5), Some(14), AlignLeft);
    [ Paragraph(p.header.title, Some(18), AlignCenter),
      Break(1.0),
      Split(name, classField, 0.75),
      Break(0.5) ]
  }

  /** `gen_header` of hell-core. */
  method GenHeader(doc: Document, p: Project)
    modifies doc
    ensures doc.font == old(doc.font) && doc.page == old(doc.page)
    ensures doc.elems == old(doc.elems) + LegacyHeaderElems(p)
  {
    var l := p.settings.language;
    var title := Paragraph(p.header.title, Some(18), AlignCenter);
    doc.Push(title);
    doc.Push(Break(1.0));
    var name := Paragraph(InputName(l) + ": " + Repeat('_', 40), Some(14), AlignLeft);
    var classField := Paragraph(InputClass(l) + ": " + Repeat('_', 5), Some(14), AlignLeft);
    doc.Push(Split(name, classField, 0.75));
    doc.Push(Break(0.5));
  }

  /** The legacy header has the same title and breaks as the current one;
      its name/class row is a single Split 0.75 whose right side is the
      class field itself, with no class-number field. */
  lemma LegacyHeaderShape(p: Project, extras: Language -> ExtraStrings)
    ensures |LegacyHeaderElems(p)| == |HeaderElems(p, extras)| == 4
    ensures forall k :: k in {0, 1, 3} ==> LegacyHeaderElems(p)[k] == HeaderElems(p, extras)[k]
    ensures LegacyHeaderElems(p)[2].ratio == 0.75 && LegacyHeaderElems(p)[2].right.Paragraph?
    ensures LegacyHeaderElems(p)[2].left == HeaderElems(p, extras)[2].left
    ensures LegacyHeaderElems(p)[2].right == HeaderElems(p, extras)[2].right.left
  {
  }

  /* ---------------- questions ---------------- */

  /** `gen_questions` of hell-core: font size 12, then every question in the
      declared order, none dropped and none reordered; the answers of a
      Selection are shuffled as in the current generator. */
  method GenQuestions(doc: Document, p: Project, rng: Rng) returns (ghost answers: seq<seq<string>>)
    requires forall j :: 0 <= j < |p.questions| ==> Fits(FirstChar(p.settings.language), |Answers(p.questions[j])|)
    modifies doc, rng
    ensures AnswerOrdersFit(p.questions, answers, p.settings.language)
    ensures AnswersShuffled(p.questions, answers)
    ensures doc.font == old(doc.font) && doc.page == old(doc.page).(fontSize := Some(12))
    ensures doc.elems == old(doc.elems) + Body(HintsOff(p.settings), p.questions, answers)
  {
    doc.SetFontSize(12);
    var _, a := PushQuestions(doc, HintsOff(p.settings), p.questions, rng);
    answers := a;
  }

  /** Question j of the legacy body sits at the place of block j, headed by
      its legacy title row numbered j + 1. */
  lemma LegacyBlockInBody(s: Settings, qs: seq<Question>, answers: seq<seq<string>>, j: nat)
    requires AnswerOrdersFit(qs, answers, s.language) && j < |qs|
    ensures AnswerOrdersFit(qs[..j], answers[..j], s.language)
    ensures
      var body := Body(HintsOff(s), qs, answers);
      var start := |Body(HintsOff(s), qs[..j], answers[..j])|;
      start < |body| && body[start] == LegacyPointsElement(j, qs[j], s.language)
  {
    BlockInBody(HintsOff(s), qs, answers, j);
    LegacyTitleHasNoHint(j, qs[j], s);
    var start := |Body(HintsOff(s), qs[..j], answers[..j])|;
    var block := QuestionBlock(j, qs[j], answers[j], HintsOff(s));
    assert Body(HintsOff(s), qs, answers)[start..start + |block|][0] == block[0];
  }

  /* ---------------- the program ---------------- */

  datatype Colour = Green | Yellow | Red

  /** The colour the elapsed time is printed in. */
  function TimingColour(ms: nat): (c: Colour)
    ensures c == Green <==> ms < 12
    ensures c == Yellow <==> 12 <= ms < 16
    ensures c == Red <==> ms >= 16
  {
    if ms < 12 then Green else if ms < 16 then Yellow else Red
  }

  function Rank(c: Colour): nat {
    match c
    case Green => 0
    case Yellow => 1
    case Red => 2
  }

  /** A slower run never gets a better colour. */
  lemma TimingColourMonotone(ms1: nat, ms2: nat)
    requires ms1 <= ms2
    ensures Rank(TimingColour(ms1)) <= Rank(TimingColour(ms2))
  {
  }

  /** The file the legacy program writes. */
  function LegacyFile(p: Project, answers: seq<seq<string>>): PdfFile
    requires AnswerOrdersFit(p.questions, answers, p.settings.language)
  {
    PdfFile(Page(Some(ToSize(p.settings.paperSize)), "Demo document", Some(10), Some(12)),
            LegacyHeaderElems(p) + Body(HintsOff(p.settings), p.questions, answers))
  }

  /** `main` after the project is read: the font and the write are
      `expect`ed, so both must succeed; the document is titled
      "Demo document", written to "output.pdf", and the run time (in
      nanoseconds) is classified by its whole milliseconds. */
  method Run(p: Project, rng: Rng, io: IoOutcome, fs: FileSystem) returns (c: Colour, ghost answers: seq<seq<string>>)
    requires Succeeds(io)
    requires forall j :: 0 <= j < |p.questions| ==> Fits(FirstChar(p.settings.language), |Answers(p.questions[j])|)
    modifies rng, fs
    ensures AnswerOrdersFit(p.questions, answers, p.settings.language)
    ensures AnswersShuffled(p.questions, answers)
    ensures fs.files == old(fs.files)["output.pdf" := LegacyFile(p, answers)]
    ensures c == TimingColour(io.elapsed / 1_000_000)
  {
    var font := FromFiles(p.settings.fontsPath, p.settings.font, io);
    var doc := new Document(font.value);
    doc.SetPaperSize(p.settings.paperSize);
    doc.SetTitle("Demo document");
    doc.SetPageMargins(10);
    GenHeader(doc, p);
    assert doc.elems == LegacyHeaderElems(p);
    answers := GenQuestions(doc, p, rng);
    var written := doc.RenderToFile(fs, "output.pdf", io);
    c := TimingColour(io.elapsed / 1_000_000);
  }
}

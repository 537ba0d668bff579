/** Composition of a test paper (src/pdf_gen.rs): header band, numbered
    question blocks, footer with the points total, then rendering to the
    output file. Each step that pushes into the document is a method whose
    postcondition gives the new document as a function of the old one; the
    functions are what the lemmas speak about. */
module PdfGen {
  import opened Prelude
  import opened Settings
  import opened Data
  import opened PdfElements
  import opened Backend

  /* ---------------- question title line ---------------- */

  /** Whether a question's title carries the multiple-answers hint. */
  predicate ShowsHint(q: Question, s: Settings) {
    q.Selection? && |q.sel.correct| >= 2 && s.showHints
  }

  function HintSuffix(l: Language): string {
    " (" + MultipleAnswersHint(l) + ")"
  }

  /** `"{i + 1}. "`: titles are numbered from 1. */
  function NumberPrefix(i: nat): string {
    Dec(i + 1) + ". "
  }

  function TitleLine(i: nat, q: Question, s: Settings): string {
    if ShowsHint(q, s) then NumberPrefix(i) + GetTitle(q) + HintSuffix(s.language)
    else NumberPrefix(i) + GetTitle(q)
  }

  /** The hint is appended exactly when the question is a Selection with at
      least two correct answers and hints are on; otherwise the line is just
      the number and the title. Input questions never get it. */
  lemma HintGating(i: nat, q: Question, s: Settings)
    ensures TitleLine(i, q, s) == NumberPrefix(i) + GetTitle(q) + HintSuffix(s.language)
            <==> (q.Selection? && |q.sel.correct| >= 2 && s.showHints)
    ensures TitleLine(i, q, s) == NumberPrefix(i) + GetTitle(q)
            <==> !(q.Selection? && |q.sel.correct| >= 2 && s.showHints)
    ensures q.Input? ==> TitleLine(i, q, s) == NumberPrefix(i) + GetTitle(q)
  {
    var plain := NumberPrefix(i) + GetTitle(q);
    assert |plain + HintSuffix(s.language)| > |plain|;
  }

  /** The number at the head of the i-th title line reads back as i + 1. */
  lemma TitleNumber(i: nat, q: Question, s: Settings)
    ensures LeadingDigits(TitleLine(i, q, s)) == Dec(i + 1)
    ensures ParseDec(LeadingDigits(TitleLine(i, q, s))) == i + 1
  {
    var tail := if ShowsHint(q, s) then GetTitle(q) + HintSuffix(s.language) else GetTitle(q);
    AppendAssoc(NumberPrefix(i), GetTitle(q), HintSuffix(s.language));
    assert TitleLine(i, q, s) == NumberPrefix(i) + tail;
    AppendAssoc(Dec(i + 1), ". ", tail);
    LeadingDigitsOfDigitsThen(Dec(i + 1), ". " + tail);
    ParseDecRoundTrip(i + 1);
  }

  /** `gen_points_element`: the title beside the right-aligned points. */
  function PointsElement(i: nat, q: Question, s: Settings): Elem {
    Split(Plain(TitleLine(i, q, s)),
          Paragraph(FormatPoints(s.language, GetPoints(q)), None, AlignRight),
          0.9)
  }

  /* ---------------- header band ---------------- */

  function HeaderElems(p: Project, extras: Language -> ExtraStrings): seq<Elem> {
    var l := p.settings.language;
    var name := Paragraph(InputName(l) + ": " + Repeat('_', 40), Some(14), AlignLeft);
    var classField := Paragraph(InputClass(l) + ": " + Repeat('_', 5), Some(14), AlignLeft);
    var classNum := Paragraph(extras(l).inputClassNum + ": " + Repeat('_', 5), Some(14), AlignLeft);
    [ Paragraph(p.header.title, Some(18), AlignCenter),
      Break(1.0),
      Split(name, Split(classField, classNum, 0.5), 0.7),
      Break(0.5) ]
  }

  method GenHeader(doc: Document, p: Project, extras: Language -> ExtraStrings)
    modifies doc
    ensures doc.font == old(doc.font) && doc.page == old(doc.page)
    ensures doc.elems == old(doc.elems) + HeaderElems(p, extras)
  {
    var l := p.settings.language;
    var title := Paragraph(p.header.title, Some(18), AlignCenter);
    doc.Push(title);
    doc.Push(Break(1.0));
    var name := Paragraph(InputName(l) + ": " + Repeat('_', 40), Some(14), AlignLeft);
    var classField := Split(
      Paragraph(InputClass(l) + ": " + Repeat('_', 5), Some(14), AlignLeft),
      Paragraph(extras(l).inputClassNum + ": " + Repeat('_', 5), Some(14), AlignLeft),
      0.5);
    doc.Push(Split(name, classField, 0.7));
    doc.Push(Break(0.5));
  }

  /** The header band is the 18pt centred title, a one-line break, the
      name/class row split 0.7 (class and number split 0.5, all 14pt) and a
      half-line break. */
  lemma HeaderShape(p: Project, extras: Language -> ExtraStrings)
    ensures |HeaderElems(p, extras)| == 4
    ensures HeaderElems(p, extras)[0] == Paragraph(p.header.title, Some(18), AlignCenter)
    ensures HeaderElems(p, extras)[1] == Break(1.0) && HeaderElems(p, extras)[3] == Break(0.5)
    ensures HeaderElems(p, extras)[2].Split? && HeaderElems(p, extras)[2].ratio == 0.7
    ensures HeaderElems(p, extras)[2].right.Split? && HeaderElems(p, extras)[2].right.ratio == 0.5
    ensures HeaderElems(p, extras)[2].left
            == Paragraph(InputName(p.settings.language) + ": " + Repeat('_', 40), Some(14), AlignLeft)
    ensures HeaderElems(p, extras)[2].right.left
            == Paragraph(InputClass(p.settings.language) + ": " + Repeat('_', 5), Some(14), AlignLeft)
    ensures HeaderElems(p, extras)[2].right.right
            == Paragraph(extras(p.settings.language).inputClassNum + ": " + Repeat('_', 5), Some(14), AlignLeft)
  {
  }

  /* ---------------- question blocks ---------------- */

  /** A dotted answer line with 1.5 mm above and below. */
  function DotLine(): Elem {
    Padded(CharRepeat('.'), 1.5, 0.0)
  }

  function DotLines(n: nat): (lines: seq<Elem>)
    ensures |lines| == n && forall k :: 0 <= k < n ==> lines[k] == DotLine()
  {
    if n == 0 then [] else DotLines(n - 1) + [DotLine()]
  }

  /** What follows the title of a question: the lettered list of its answers
      in the order given, or a half-line break and one dotted line per
      requested line. */
  function AnswerBlock(q: Question, answers: seq<string>, l: Language): seq<Elem>
    requires Fits(FirstChar(l), |answers|)
  {
    match q
    case Selection(_) => [AlphaList(Bullets(FirstChar(l), answers))]
    case Input(iq) => [Break(0.5)] + DotLines(iq.numberOfLines)
  }

  function QuestionBlock(i: nat, q: Question, answers: seq<string>, s: Settings): seq<Elem>
    requires Fits(FirstChar(s.language), |answers|)
  {
    [PointsElement(i, q, s)] + AnswerBlock(q, answers, s.language) + [Break(1.0)]
  }

  /** An Input block: its title row, a half-line break, exactly
      `number_of_lines` dotted lines and a full-line break; no answers are shown. */
  lemma InputBlockShape(i: nat, iq: InputQuestion, s: Settings)
    ensures
      var b := QuestionBlock(i, Input(iq), [], s);
      && b == [PointsElement(i, Input(iq), s), Break(0.5)] + DotLines(iq.numberOfLines) + [Break(1.0)]
      && |b| == iq.numberOfLines + 3
      && forall k :: 2 <= k < |b| - 1 ==> b[k] == DotLine()
  {
  }

  /** A Selection block: its title row, one lettered list starting at the
      language's first bullet character whose item k is answer k under
      label k, and a full-line break. */
  lemma SelectionBlockShape(i: nat, sq: SelectionQuestion, answers: seq<string>, s: Settings, k: nat)
    requires Fits(FirstChar(s.language), |answers|) && k < |answers|
    ensures
      var b := QuestionBlock(i, Selection(sq), answers, s);
      && |b| == 3 && b[0] == PointsElement(i, Selection(sq), s) && b[2] == Break(1.0)
      && b[1] == AlphaList(Bullets(FirstChar(s.language), answers))
      && |b[1].items| == |answers|
      && IsScalar(FirstChar(s.language) as int + k)
      && b[1].items[k] == BulletPoint(Label(FirstChar(s.language), k), Text(answers[k]))
  {
    BulletsAt(FirstChar(s.language), answers, k);
  }

  /** One shuffled answer order per rendered question, each fitting the alphabet. */
  predicate AnswerOrdersFit(qs: seq<Question>, answers: seq<seq<string>>, l: Language) {
    |answers| == |qs| && forall j :: 0 <= j < |qs| ==> Fits(FirstChar(l), |answers[j]|)
  }

  /** The block of each rendered question, numbered from 1 in order. */
  function Blocks(s: Settings, qs: seq<Question>, answers: seq<seq<string>>): (blocks: seq<seq<Elem>>)
    requires AnswerOrdersFit(qs, answers, s.language)
    ensures |blocks| == |qs|
    ensures forall j :: 0 <= j < |qs| ==> blocks[j] == QuestionBlock(j, qs[j], answers[j], s)
  {
    seq(|qs|, j requires 0 <= j < |qs| => QuestionBlock(j, qs[j], answers[j], s))
  }

  /** The question blocks one after the other. */
  function Body(s: Settings, qs: seq<Question>, answers: seq<seq<string>>): seq<Elem>
    requires AnswerOrdersFit(qs, answers, s.language)
  {
    Concat(Blocks(s, qs, answers))
  }

  /** The blocks of the first m questions are the first m blocks. */
  lemma BlocksPrefix(s: Settings, qs: seq<Question>, answers: seq<seq<string>>, m: nat)
    requires AnswerOrdersFit(qs, answers, s.language) && m <= |qs|
    ensures AnswerOrdersFit(qs[..m], answers[..m], s.language)
    ensures Blocks(s, qs[..m], answers[..m]) == Blocks(s, qs, answers)[..m]
  {
  }

  /** Rendering fewer questions gives a prefix of the body. */
  lemma BodyPrefix(s: Settings, qs: seq<Question>, answers: seq<seq<string>>, m: nat)
    requires AnswerOrdersFit(qs, answers, s.language) && m <= |qs|
    ensures AnswerOrdersFit(qs[..m], answers[..m], s.language)
    ensures Body(s, qs[..m], answers[..m]) <= Body(s, qs, answers)
  {
    BlocksPrefix(s, qs, answers, m);
    ConcatPrefix(Blocks(s, qs, answers), m);
  }

  /** The body is the question blocks in order: block j, numbered j + 1,
      sits right after the blocks of the questions before it. */
  lemma BlockInBody(s: Settings, qs: seq<Question>, answers: seq<seq<string>>, j: nat)
    requires AnswerOrdersFit(qs, answers, s.language) && j < |qs|
    ensures AnswerOrdersFit(qs[..j], answers[..j], s.language)
    ensures
      var start := |Body(s, qs[..j], answers[..j])|;
      var block := QuestionBlock(j, qs[j], answers[j], s);
      start + |block| <= |Body(s, qs, answers)|
      && Body(s, qs, answers)[start..start + |block|] == block
  {
    BlocksPrefix(s, qs, answers, j);
    ConcatAt(Blocks(s, qs, answers), j);
  }

  function PointsSum(qs: seq<Question>): nat {
    if qs == [] then 0 else PointsSum(qs[..|qs| - 1]) + GetPoints(qs[|qs| - 1])
  }

  /** The questions rendered from an ordering: the first `max_questions`. */
  function Rendered(order: seq<Question>, s: Settings): seq<Question> {
    order[..Min(|order|, s.maxQuestions)]
  }

  /** The questions that can end up rendered: with shuffling on, any of
      them (when at least one is rendered); otherwise the declared prefix. */
  function Candidates(p: Project): seq<Question> {
    var k := Min(|p.questions|, p.settings.maxQuestions);
    if k == 0 then [] else if p.settings.randomizeQuestions then p.questions else p.questions[..k]
  }

  /** No rendered Selection has so many answers that a bullet would fall
      outside the valid `char`s (the list's `unwrap` would panic). */
  predicate ListsFit(p: Project) {
    forall j :: 0 <= j < |Candidates(p)| ==> Fits(FirstChar(p.settings.language), |Answers(Candidates(p)[j])|)
  }

  /** `gen_questions`. Returns the points total; the ghost results name the
      order the questions were shuffled into and the answer order of each
      rendered question. */
  method GenQuestions(doc: Document, p: Project, rng: Rng)
      returns (points: nat, ghost order: seq<Question>, ghost answers: seq<seq<string>>)
    requires ListsFit(p)
    modifies doc, rng
    ensures multiset(order) == multiset(p.questions)
    ensures !p.settings.randomizeQuestions ==> order == p.questions
    ensures AnswerOrdersFit(Rendered(order, p.settings), answers, p.settings.language)
    ensures AnswersShuffled(Rendered(order, p.settings), answers)
    ensures points == PointsSum(Rendered(order, p.settings))
    ensures doc.font == old(doc.font) && doc.page == old(doc.page).(fontSize := Some(12))
    ensures doc.elems == old(doc.elems) + Body(p.settings, Rendered(order, p.settings), answers)
  {
    var s := p.settings;
    doc.SetFontSize(12);
    var ordered := QuestionOrder(p, rng);
    order := ordered;
    var rendered := ordered[..Min(|ordered|, s.maxQuestions)];
    forall j | 0 <= j < |rendered|
      ensures Fits(FirstChar(s.language), |Answers(rendered[j])|)
    {
      CandidateFits(p, ordered, j);
    }
    points, answers := PushQuestions(doc, s, rendered, rng);
  }

  /** The loop of `gen_questions` over the questions it renders. */
  method PushQuestions(doc: Document, s: Settings, qs: seq<Question>, rng: Rng)
      returns (points: nat, ghost answers: seq<seq<string>>)
    requires forall j :: 0 <= j < |qs| ==> Fits(FirstChar(s.language), |Answers(qs[j])|)
    modifies doc, rng
    ensures AnswerOrdersFit(qs, answers, s.language) && AnswersShuffled(qs, answers)
    ensures points == PointsSum(qs)
    ensures doc.font == old(doc.font) && doc.page == old(doc.page)
    ensures doc.elems == old(doc.elems) + Body(s, qs, answers)
  {
    points, answers := 0, [];
    ghost var done: seq<Question> := [];
    var i := 0;
    while i < |qs|
      invariant 0 <= i <= |qs| && done == qs[..i]
      invariant AnswerOrdersFit(done, answers, s.language) && AnswersShuffled(done, answers)
      invariant points == PointsSum(done)
      invariant doc.font == old(doc.font) && doc.page == old(doc.page)
      invariant doc.elems == old(doc.elems) + Body(s, done, answers)
    {
      var q := qs[i];
      ghost var a := PushQuestion(doc, i, q, s, rng);
      points := points + GetPoints(q);
      BodySnoc(s, done, answers, q, a);
      AnswersShuffledSnoc(done, answers, q, a);
      AppendAssoc(old(doc.elems), Body(s, done, answers), QuestionBlock(i, q, a, s));
      TakeOneMore(qs, i);
      done, answers := done + [q], answers + [a];
      i := i + 1;
    }
    assert qs[..i] == qs;
  }

  /** The questions in the order they are rendered in: shuffled when
      `randomize_questions` is set, as declared otherwise. */
  method QuestionOrder(p: Project, rng: Rng) returns (ordered: seq<Question>)
    modifies rng
    ensures multiset(ordered) == multiset(p.questions)
    ensures !p.settings.randomizeQuestions ==> ordered == p.questions
  {
    var qs := new Question[|p.questions|](j requires 0 <= j < |p.questions| => p.questions[j]);
    assert qs[..] == p.questions;
    if p.settings.randomizeQuestions {
      rng.Shuffle(qs);
    }
    ordered := qs[..];
  }

  /** Each rendered question's answers were listed in some order of its own answers. */
  predicate AnswersShuffled(qs: seq<Question>, answers: seq<seq<string>>) {
    |answers| == |qs| && forall j :: 0 <= j < |qs| ==> multiset(answers[j]) == multiset(Answers(qs[j]))
  }

  lemma AnswersShuffledSnoc(qs: seq<Question>, answers: seq<seq<string>>, q: Question, a: seq<string>)
    requires AnswersShuffled(qs, answers) && multiset(a) == multiset(Answers(q))
    ensures AnswersShuffled(qs + [q], answers + [a])
  {
    assert forall j :: 0 <= j < |qs| ==> (qs + [q])[j] == qs[j] && (answers + [a])[j] == answers[j];
  }

  /** Under `ListsFit`, the answers of every rendered question fit the alphabet. */
  lemma CandidateFits(p: Project, ordered: seq<Question>, i: nat)
    requires ListsFit(p) && multiset(ordered) == multiset(p.questions)
    requires !p.settings.randomizeQuestions ==> ordered == p.questions
    requires i < Min(|ordered|, p.settings.maxQuestions)
    ensures Fits(FirstChar(p.settings.language), |Answers(ordered[i])|)
  {
    var q := ordered[i];
    assert |ordered| == |multiset(ordered)| == |p.questions|;
    if p.settings.randomizeQuestions {
      assert q in multiset(ordered);
      var j :| 0 <= j < |p.questions| && p.questions[j] == q;
      assert Candidates(p)[j] == q;
    } else {
      assert Candidates(p)[i] == q;
    }
  }

  /** Appending one question appends its block, numbered after the others. */
  lemma BodySnoc(s: Settings, qs: seq<Question>, answers: seq<seq<string>>, q: Question, a: seq<string>)
    requires AnswerOrdersFit(qs, answers, s.language) && Fits(FirstChar(s.language), |a|)
    ensures AnswerOrdersFit(qs + [q], answers + [a], s.language)
    ensures Body(s, qs + [q], answers + [a]) == Body(s, qs, answers) + QuestionBlock(|qs|, q, a, s)
    ensures PointsSum(qs + [q]) == PointsSum(qs) + GetPoints(q)
  {
    assert (qs + [q])[..|qs|] == qs;
    BlocksSnoc(s, qs, answers, q, a);
    ConcatSnoc(Blocks(s, qs, answers), QuestionBlock(|qs|, q, a, s));
  }

  lemma BlocksSnoc(s: Settings, qs: seq<Question>, answers: seq<seq<string>>, q: Question, a: seq<string>)
    requires AnswerOrdersFit(qs, answers, s.language) && Fits(FirstChar(s.language), |a|)
    ensures AnswerOrdersFit(qs + [q], answers + [a], s.language)
    ensures Blocks(s, qs + [q], answers + [a]) == Blocks(s, qs, answers) + [QuestionBlock(|qs|, q, a, s)]
  {
    var longer := Blocks(s, qs + [q], answers + [a]);
    var snoc := Blocks(s, qs, answers) + [QuestionBlock(|qs|, q, a, s)];
    forall j | 0 <= j < |longer|
      ensures longer[j] == snoc[j]
    {
      if j < |qs| {
        assert (qs + [q])[j] == qs[j] && (answers + [a])[j] == answers[j];
      }
    }
  }

  /** One iteration of the loop: the title row, the answer block and a break. */
  method PushQuestion(doc: Document, i: nat, q: Question, s: Settings, rng: Rng) returns (ghost a: seq<string>)
    requires Fits(FirstChar(s.language), |Answers(q)|)
    modifies doc, rng
    ensures multiset(a) == multiset(Answers(q)) && |a| == |Answers(q)|
    ensures doc.font == old(doc.font) && doc.page == old(doc.page)
    ensures doc.elems == old(doc.elems) + QuestionBlock(i, q, a, s)
  {
    ghost var start := doc.elems;
    doc.Push(PointsElement(i, q, s));
    match q {
      case Selection(sq) =>
        a := PushSelection(doc, sq, s.language, rng);
      case Input(iq) =>
        PushInput(doc, iq);
        a := [];
    }
    ghost var answerBlock := AnswerBlock(q, a, s.language);
    assert doc.elems == (start + [PointsElement(i, q, s)]) + answerBlock;
    AppendAssoc(start, [PointsElement(i, q, s)], answerBlock);
    doc.Push(Break(1.0));
    AppendAssoc(start, [PointsElement(i, q, s)] + answerBlock, [Break(1.0)]);
  }

  /** The Selection arm: shuffle `correct ++ incorrect` and push one lettered
      list holding one text per answer. */
  method PushSelection(doc: Document, sq: SelectionQuestion, l: Language, rng: Rng)
      returns (ghost shuffled: seq<string>)
    requires Fits(FirstChar(l), |sq.correct| + |sq.incorrect|)
    modifies doc, rng
    ensures multiset(shuffled) == multiset(sq.correct + sq.incorrect)
    ensures |shuffled| == |sq.correct| + |sq.incorrect|
    ensures doc.font == old(doc.font) && doc.page == old(doc.page)
    ensures doc.elems == old(doc.elems) + [AlphaList(Bullets(FirstChar(l), shuffled))]
  {
    var all := sq.correct + sq.incorrect;
    var arr := new string[|all|](j requires 0 <= j < |all| => all[j]);
    assert arr[..] == all;
    rng.Shuffle(arr);
    shuffled := arr[..];
    var order := arr[..];
    var first := FirstChar(l);
    var list := new AlphabeticOrderedList.New(first);
    var j := 0;
    while j < |order|
      invariant 0 <= j <= |order|
      invariant list.startChar == first && list.number == j
      invariant list.layout == Bullets(first, order[..j])
      invariant doc.font == old(doc.font) && doc.page == old(doc.page) && doc.elems == old(doc.elems)
    {
      FitsAt(first, |order|, j);
      list.Push(Text(order[j]));
      assert order[..j + 1][..j] == order[..j];
      j := j + 1;
    }
    assert order[..j] == order;
    doc.Push(list.AsElement());
  }

  /** The Input arm: a half-line break, then one dotted line per requested line. */
  method PushInput(doc: Document, iq: InputQuestion)
    modifies doc
    ensures doc.font == old(doc.font) && doc.page == old(doc.page)
    ensures doc.elems == old(doc.elems) + ([Break(0.5)] + DotLines(iq.numberOfLines))
  {
    doc.Push(Break(0.5));
    var j := 0;
    while j < iq.numberOfLines
      invariant 0 <= j <= iq.numberOfLines
      invariant doc.font == old(doc.font) && doc.page == old(doc.page)
      invariant doc.elems == old(doc.elems) + [Break(0.5)] + DotLines(j)
    {
      doc.Push(DotLine());
      j := j + 1;
    }
    AppendAssoc(old(doc.elems), [Break(0.5)], DotLines(j));
  }

  /* ---------------- footer band ---------------- */

  /** `gen_footer`'s element. `log10` of the points total is undefined at 0. */
  function FooterElem(s: Settings, extras: Language -> ExtraStrings, maxPoints: nat): Elem
    requires maxPoints >= 1
  {
    var l := s.language;
    var examiner := Split(Plain(extras(l).examiner + ": "), Plain(Repeat('_', 30)), 0.0);
    var points := Plain(extras(l).pointsSum + ": " + Repeat('_', ILog10(maxPoints) + 2) + "/" + Dec(maxPoints));
    Split(examiner, points, 0.7)
  }

  method GenFooter(doc: Document, p: Project, extras: Language -> ExtraStrings, maxPoints: nat)
    requires maxPoints >= 1
    modifies doc
    ensures doc.font == old(doc.font) && doc.page == old(doc.page)
    ensures doc.elems == old(doc.elems) + [FooterElem(p.settings, extras, maxPoints)]
  {
    var neededSpace := ILog10(maxPoints) + 2;
    var l := p.settings.language;
    var examiner := Split(Plain(extras(l).examiner + ": "), Plain(Repeat('_', 30)), 0.0);
    var points := Plain(extras(l).pointsSum + ": " + Repeat('_', neededSpace) + "/" + Dec(maxPoints));
    doc.Push(Split(examiner, points, 0.7));
  }

  /** The footer is the examiner caption followed by a 30-underscore line
      (split 0.0), then the points line: the caption, a blank one underscore
      wider than the total has digits, then "/" and the total, which reads back. */
  lemma FooterPointsLine(s: Settings, extras: Language -> ExtraStrings, maxPoints: nat)
    requires maxPoints >= 1
    ensures
      var f := FooterElem(s, extras, maxPoints);
      var caption := extras(s.language).pointsSum + ": ";
      var blank := |Dec(maxPoints)| + 1;
      f.ratio == 0.7 && f.left.ratio == 0.0
      && f.left.left == Plain(extras(s.language).examiner + ": ")
      && f.left.right == Plain(Repeat('_', 30))
      && f.right.text == caption + Repeat('_', blank) + "/" + Dec(maxPoints)
      && f.right.text[|caption| + blank + 1..] == Dec(maxPoints)
      && ParseDec(f.right.text[|caption| + blank + 1..]) == maxPoints
  {
    DecLength(maxPoints);
    ParseDecRoundTrip(maxPoints);
    var caption := extras(s.language).pointsSum + ": ";
    var blank := |Dec(maxPoints)| + 1;
    var t := caption + Repeat('_', blank) + "/" + Dec(maxPoints);
    assert t == (caption + Repeat('_', blank) + "/") + Dec(maxPoints);
  }

  /* ---------------- when the footer is defined ---------------- */

  function ZeroCount(qs: seq<Question>): nat {
    if qs == [] then 0
    else ZeroCount(qs[..|qs| - 1]) + (if GetPoints(qs[|qs| - 1]) == 0 then 1 else 0)
  }

  lemma {:induction false} ZeroCountAppend(a: seq<Question>, b: seq<Question>)
    ensures ZeroCount(a + b) == ZeroCount(a) + ZeroCount(b)
    decreases |b|
  {
    if b != [] {
      var n := |b| - 1;
      assert (a + b)[..|a + b| - 1] == a + b[..n];
      ZeroCountAppend(a, b[..n]);
    } else {
      assert a + b == a;
    }
  }

  /** Reordering the questions does not change how many are worth nothing. */
  lemma {:induction false} ZeroCountPermutation(a: seq<Question>, b: seq<Question>)
    requires multiset(a) == multiset(b)
    ensures ZeroCount(a) == ZeroCount(b)
    decreases |a|
  {
    if a == [] {
      assert |b| == |multiset(b)| == 0;
    } else {
      var n := |a| - 1;
      var x := a[n];
      assert a == a[..n] + [x];
      assert x in multiset(b);
      var j :| 0 <= j < |b| && b[j] == x;
      var rest := b[..j] + b[j + 1..];
      RemoveOne(b, j);
      assert multiset(a) == multiset(a[..n]) + multiset{x};
      assert multiset(a[..n]) == multiset(a) - multiset{x} == multiset(b) - multiset{x} == multiset(rest);
      ZeroCountPermutation(a[..n], rest);
      ZeroCountRemoveOne(b, j);
      ZeroCountAppend(a[..n], [x]);
    }
  }

  /** Taking element j out of a sequence takes one copy out of its multiset. */
  lemma RemoveOne<T>(b: seq<T>, j: nat)
    requires j < |b|
    ensures multiset(b) == multiset(b[..j] + b[j + 1..]) + multiset{b[j]}
  {
    SplitAt(b, j);
  }

  lemma SplitAt<T>(b: seq<T>, j: nat)
    requires j < |b|
    ensures b == (b[..j] + [b[j]]) + b[j + 1..]
  {
  }

  lemma ZeroCountRemoveOne(b: seq<Question>, j: nat)
    requires j < |b|
    ensures ZeroCount(b) == ZeroCount(b[..j] + b[j + 1..]) + ZeroCount([b[j]])
  {
    var before, at, after := b[..j], [b[j]], b[j + 1..];
    SplitAt(b, j);
    ZeroCountAppend(before + at, after);
    ZeroCountAppend(before, at);
    ZeroCountAppend(before, after);
  }

  lemma ZeroCountPrefix(qs: seq<Question>, k: nat)
    requires k <= |qs|
    ensures ZeroCount(qs[..k]) <= ZeroCount(qs)
  {
    assert qs == qs[..k] + qs[k..];
    ZeroCountAppend(qs[..k], qs[k..]);
  }

  /** A list with fewer zero-point questions than questions is worth at least a point. */
  lemma {:induction false} FewZerosPositiveSum(qs: seq<Question>)
    requires ZeroCount(qs) < |qs|
    ensures PointsSum(qs) >= 1
    decreases |qs|
  {
    var n := |qs| - 1;
    if GetPoints(qs[n]) == 0 {
      FewZerosPositiveSum(qs[..n]);
    }
  }

  /** The rendered questions are worth at least one point, however they are
      shuffled, so `log10` in the footer is defined. With shuffling off this
      is exactly the declared prefix's total; with it on, it holds for every
      order precisely when the zero-point questions cannot fill the rendered
      slots. */
  predicate FooterDefined(p: Project) {
    var k := Min(|p.questions|, p.settings.maxQuestions);
    if p.settings.randomizeQuestions then ZeroCount(p.questions) < k
    else PointsSum(p.questions[..k]) >= 1
  }

  lemma RenderedPointsPositive(p: Project, order: seq<Question>)
    requires FooterDefined(p)
    requires multiset(order) == multiset(p.questions)
    requires !p.settings.randomizeQuestions ==> order == p.questions
    ensures PointsSum(Rendered(order, p.settings)) >= 1
  {
    if p.settings.randomizeQuestions {
      var k := Min(|order|, p.settings.maxQuestions);
      assert |order| == |multiset(order)| == |p.questions|;
      ZeroCountPermutation(order, p.questions);
      ZeroCountPrefix(order, k);
      FewZerosPositiveSum(order[..k]);
    }
  }

  /* ---------------- the whole generation ---------------- */

  /** The file a successful generation writes. */
  function PaperFile(p: Project, extras: Language -> ExtraStrings, order: seq<Question>, answers: seq<seq<string>>): PdfFile
    requires AnswerOrdersFit(Rendered(order, p.settings), answers, p.settings.language)
    requires PointsSum(Rendered(order, p.settings)) >= 1
  {
    var rendered := Rendered(order, p.settings);
    PdfFile(Page(Some(ToSize(p.settings.paperSize)), p.header.title, Some(10), Some(12)),
      HeaderElems(p, extras) + Body(p.settings, rendered, answers)
      + [FooterElem(p.settings, extras, PointsSum(rendered))])
  }

  /** Everything `generate_pdf` does between loading the font and writing
      the file: page settings, header, questions and footer. */
  method ComposePaper(font: FontFamily, p: Project, extras: Language -> ExtraStrings, rng: Rng)
      returns (doc: Document, ghost order: seq<Question>, ghost answers: seq<seq<string>>)
    requires ListsFit(p) && FooterDefined(p)
    modifies rng
    ensures fresh(doc)
    ensures multiset(order) == multiset(p.questions)
    ensures !p.settings.randomizeQuestions ==> order == p.questions
    ensures AnswerOrdersFit(Rendered(order, p.settings), answers, p.settings.language)
    ensures AnswersShuffled(Rendered(order, p.settings), answers)
    ensures PointsSum(Rendered(order, p.settings)) >= 1
    ensures doc.Snapshot() == PaperFile(p, extras, order, answers)
  {
    doc := new Document(font);
    doc.SetPaperSize(p.settings.paperSize);
    doc.SetTitle(p.header.title);
    doc.SetPageMargins(10);
    GenHeader(doc, p, extras);
    assert doc.elems == HeaderElems(p, extras);
    var maxPoints;
    maxPoints, order, answers := GenQuestions(doc, p, rng);
    RenderedPointsPositive(p, order);
    GenFooter(doc, p, extras, maxPoints);
  }

  /** `generate_pdf`: a font-loading failure is returned as the error before
      anything is composed or written; a file-writing failure is returned as
      the error and leaves every path but the output path as it was; otherwise the output path holds the
      header, the rendered questions and the footer, and the elapsed time is
      returned. */
  method GeneratePdf(p: Project, extras: Language -> ExtraStrings, rng: Rng, io: IoOutcome, fs: FileSystem)
      returns (r: Result<nat, PdfError>, ghost order: seq<Question>, ghost answers: seq<seq<string>>)
    requires io.fontError.None? ==> ListsFit(p) && FooterDefined(p)
    modifies rng, fs
    ensures r.Success? <==> Succeeds(io)
    ensures io.fontError.Some? ==> r == Failure(io.fontError.value)
    ensures io.fontError.None? && io.writeError.Some? ==> r == Failure(io.writeError.value)
    ensures io.fontError.Some? ==> fs.files == old(fs.files)
    ensures fs.files - {p.settings.output} == old(fs.files) - {p.settings.output}
    ensures Succeeds(io) ==>
              && r == Success(io.elapsed)
              && multiset(order) == multiset(p.questions)
              && (!p.settings.randomizeQuestions ==> order == p.questions)
              && AnswerOrdersFit(Rendered(order, p.settings), answers, p.settings.language)
              && AnswersShuffled(Rendered(order, p.settings), answers)
              && PointsSum(Rendered(order, p.settings)) >= 1
              && fs.files == old(fs.files)[p.settings.output := PaperFile(p, extras, order, answers)]
  {
    ghost var before := fs.files;
    order, answers := p.questions, [];
    var font := FromFiles(p.settings.fontsPath, p.settings.font, io);
    if font.Failure? {
      return Failure(font.error), order, answers;
    }
    var doc;
    doc, order, answers := ComposePaper(font.value, p, extras, rng);
    var written := doc.RenderToFile(fs, p.settings.output, io);
    UpdateOutside(before, p.settings.output, doc.Snapshot());
    if written.Failure? {
      return Failure(written.error), order, answers;
    }
    r := Success(io.elapsed);
  }
}

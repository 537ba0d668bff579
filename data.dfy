/** The question and project model (src/data.rs, hell-core/src/data.rs). */
module Data {
  import opened Prelude
  import opened Settings

  /** A missing `points` key defaults to one point. */
  function DefaultPoints(): u8 {
    1
  }

  /** `default_bool_true`, the default of a missing `show_hints` key. */
  function DefaultBoolTrue(): bool {
    true
  }

  datatype SelectionQuestion = SelectionQuestion(
    question: string,
    correct: seq<string>,
    incorrect: seq<string>,
    points: u8)

  datatype InputQuestion = InputQuestion(
    question: string,
    numberOfLines: u16,
    points: u8)

  /** `InputQuestion::new` stores its three arguments as they are. */
  function NewInputQuestion(question: string, numberOfLines: u16, points: u8): (q: InputQuestion)
    ensures q.question == question && q.numberOfLines == numberOfLines && q.points == points
  {
    InputQuestion(question, numberOfLines, points)
  }

  datatype Question = Selection(sel: SelectionQuestion) | Input(inp: InputQuestion)

  function GetTitle(q: Question): string {
    match q
    case Selection(s) => s.question
    case Input(i) => i.question
  }

  function GetPoints(q: Question): u8 {
    match q
    case Selection(s) => s.points
    case Input(i) => i.points
  }

  /** The answers a Selection question offers, correct ones first; an Input
      question offers none. */
  function Answers(q: Question): seq<string> {
    match q
    case Selection(s) => s.correct + s.incorrect
    case Input(_) => []
  }

  /** The accessors give back the fields a question was built from, whichever
      variant holds them. */
  lemma AccessorsReturnFields(title: string, correct: seq<string>, incorrect: seq<string>, lines: u16, points: u8)
    ensures GetTitle(Selection(SelectionQuestion(title, correct, incorrect, points))) == title
    ensures GetPoints(Selection(SelectionQuestion(title, correct, incorrect, points))) == points
    ensures GetTitle(Input(NewInputQuestion(title, lines, points))) == title
    ensures GetPoints(Input(NewInputQuestion(title, lines, points))) == points
  {
  }

  datatype Header = Header(title: string)

  datatype Project = Project(settings: Settings, header: Header, questions: seq<Question>)

  /** `Project::default()`: no questions. The `Default` impl sets only
      `questions`, so `settings` and `header` are parameters here. */
  function DefaultProject(settings: Settings, header: Header): (p: Project)
    ensures p.questions == [] && p.settings == settings && p.header == header
  {
    Project(settings, header, [])
  }
}

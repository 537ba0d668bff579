/** The layout elements a document is built from, the render routing of the
    two custom elements (src/pdf_elements.rs, hell-core/src/elements.rs) and
    the alphabetic ordered list. Geometry is over `real`; what the PDF library
    does when it renders one of its own elements is a parameter (`Leaf`). */
module PdfElements {
  import opened Prelude

  datatype Align = AlignLeft | AlignCenter | AlignRight

  /** Element descriptors: what was pushed, with the parameters it was built with. */
  datatype Elem =
    | Paragraph(text: string, fontSize: Option<nat>, align: Align)
    | Text(content: string)
    | Break(lines: real)
      /** `PaddedElement::new(inner, Margins::vh(vertical, horizontal))` */
    | Padded(inner: Elem, vertical: real, horizontal: real)
      /** A one-line filler repeating one character across the width; its
          layout is the font's business and is not modelled. */
    | CharRepeat(ch: char)
    | BulletPoint(bullet: string, body: Elem)
      /** `LinearLayout::vertical()` holding these elements. */
    | Vertical(items: seq<Elem>)
      /** An `AlphabeticOrderedList` whose layout holds these bullet points. */
    | AlphaList(items: seq<Elem>)
    | Split(left: Elem, right: Elem, ratio: real)

  /** A plain paragraph: default style, left-aligned. */
  function Plain(s: string): Elem {
    Paragraph(s, None, AlignLeft)
  }

  /** A rectangle of the page, origin and size in millimetres. */
  datatype Area = Area(x: real, y: real, width: real, height: real) {
    /** `Area::set_width`. */
    function WithWidth(w: real): Area {
      this.(width := w)
    }
    /** `Area::add_offset`: moves the origin and shrinks the area by the same amount. */
    function AddOffset(dx: real, dy: real): Area {
      Area(x + dx, y + dy, width - dx, height - dy)
    }
  }

  datatype RenderResult = RenderResult(width: real, height: real, hasMore: bool)

  datatype PdfError = PdfError(message: string)

  /** How the PDF library renders the elements it owns. */
  type Leaf = (Elem, Area) -> Result<RenderResult, PdfError>

  /** The sub-area the left child of a Split is rendered into. */
  function LeftArea(a: Area, ratio: real): Area {
    if ratio == 0.0 then a else a.WithWidth(a.width * ratio)
  }

  /** The sub-area the right child of a Split is rendered into, given the
      width the left child reported. */
  function RightArea(a: Area, ratio: real, leftWidth: real): Area {
    if ratio == 0.0 then a.AddOffset(leftWidth, 0.0) else a.AddOffset(a.width * ratio, 0.0)
  }

  /** `Element::render` for the custom elements; everything else is the library's. */
  function Render(leaf: Leaf, e: Elem, a: Area): Result<RenderResult, PdfError>
    decreases e
  {
    match e
    case Split(l, r, ratio) =>
      var lr :- Render(leaf, l, LeftArea(a, ratio));
      Render(leaf, r, RightArea(a, ratio, lr.width))
    case AlphaList(items) => leaf(Vertical(items), a)
    case _ => leaf(e, a)
  }

  /** With a non-zero ratio the two sub-areas share the parent's row and tile
      its width: the right one starts where the left one ends. */
  lemma SplitAreasTile(a: Area, ratio: real, leftWidth: real)
    requires ratio != 0.0
    ensures LeftArea(a, ratio).x == a.x && LeftArea(a, ratio).width == a.width * ratio
    ensures RightArea(a, ratio, leftWidth).x == LeftArea(a, ratio).x + LeftArea(a, ratio).width
    ensures LeftArea(a, ratio).width + RightArea(a, ratio, leftWidth).width == a.width
    ensures LeftArea(a, ratio).y == a.y == RightArea(a, ratio, leftWidth).y
    ensures LeftArea(a, ratio).height == a.height == RightArea(a, ratio, leftWidth).height
  {
  }

  /** With ratio 0 the left child gets the whole area and the right child is
      placed after the width the left child measured (flow layout). */
  lemma FlowSplitAreas(a: Area, leftWidth: real)
    ensures LeftArea(a, 0.0) == a
    ensures RightArea(a, 0.0, leftWidth).x == a.x + leftWidth
    ensures RightArea(a, 0.0, leftWidth).width == a.width - leftWidth
    ensures RightArea(a, 0.0, leftWidth).y == a.y && RightArea(a, 0.0, leftWidth).height == a.height
  {
  }

  /** A failure of the left child is the Split's result, whatever the right child is. */
  lemma SplitLeftFailureShortCircuits(leaf: Leaf, l: Elem, r: Elem, ratio: real, a: Area)
    requires Render(leaf, l, LeftArea(a, ratio)).Failure?
    ensures Render(leaf, Split(l, r, ratio), a) == Render(leaf, l, LeftArea(a, ratio))
  {
  }

  /** Once the left child succeeds, the Split reports exactly what the right
      child reports; the left child's height is dropped. */
  lemma SplitReportsRightChild(leaf: Leaf, l: Elem, r: Elem, ratio: real, a: Area)
    requires Render(leaf, l, LeftArea(a, ratio)).Success?
    ensures Render(leaf, Split(l, r, ratio), a)
            == Render(leaf, r, RightArea(a, ratio, Render(leaf, l, LeftArea(a, ratio)).value.width))
  {
  }

  /** A Split whose left column is taller than its right one reports only
      the right one's height. */
  lemma SplitHeightIsNotMaximum()
    ensures
      var tall, short := Plain("tall"), Plain("short");
      var leaf: Leaf := (e: Elem, a: Area) =>
        if e == tall then Success(RenderResult(10.0, 20.0, false)) else Success(RenderResult(10.0, 5.0, false));
      Render(leaf, Split(tall, short, 0.5), Area(0.0, 0.0, 100.0, 100.0)) == Success(RenderResult(10.0, 5.0, false))
  {
  }

  /** An alphabetic list renders as the vertical layout of its bullet points. */
  lemma AlphaListRendersAsLayout(leaf: Leaf, items: seq<Elem>, a: Area)
    ensures Render(leaf, AlphaList(items), a) == leaf(Vertical(items), a)
  {
  }

  /** The bullet of the push made when the counter is `n`: `format!("{})", ch)`. */
  function Label(start: char, n: nat): string
    requires IsScalar(start as int + n)
  {
    [(start as int + n) as char, ')']
  }

  /** Every push of `n` items, counter 0 to n - 1, finds a valid `char`. */
  predicate Fits(start: char, n: nat) {
    if (start as int) < 0xD800 then start as int + n <= 0xD800 else start as int + n <= 0x11_0000
  }

  lemma FitsAt(start: char, n: nat, k: nat)
    requires Fits(start, n) && k < n
    ensures IsScalar(start as int + k)
  {
  }

  /** Different counters give different bullets. */
  lemma LabelsDistinct(start: char, j: nat, k: nat)
    requires IsScalar(start as int + j) && IsScalar(start as int + k) && j != k
    ensures Label(start, j) != Label(start, k)
  {
    assert Label(start, j)[0] != Label(start, k)[0];
  }

  /** The bullet points a fresh list holds after one push per answer. */
  function Bullets(start: char, answers: seq<string>): (items: seq<Elem>)
    requires Fits(start, |answers|)
    ensures |items| == |answers|
  {
    if answers == [] then []
    else Bullets(start, answers[..|answers| - 1])
         + [BulletPoint(Label(start, |answers| - 1), Text(answers[|answers| - 1]))]
  }

  /** The k-th bullet point wraps the k-th answer under the k-th label. */
  lemma {:induction false} BulletsAt(start: char, answers: seq<string>, k: nat)
    requires Fits(start, |answers|) && k < |answers|
    ensures IsScalar(start as int + k)
    ensures Bullets(start, answers)[k] == BulletPoint(Label(start, k), Text(answers[k]))
  {
    if k < |answers| - 1 {
      BulletsAt(start, answers[..|answers| - 1], k);
      assert answers[..|answers| - 1][k] == answers[k];
    }
  }

  /** `AlphabeticOrderedList`: bullet points in a vertical layout, a counter
      and the first bullet character. */
  class AlphabeticOrderedList {
    var layout: seq<Elem>
    var number: u32
    var startChar: char

    /** `AlphabeticOrderedList::new(ch)`, which is `with_start(0, ch)`. */
    constructor New(ch: char)
      ensures layout == [] && number == 0 && startChar == ch
    {
      layout := [];
      number := 0;
      startChar := ch;
    }

    constructor WithStart(start: u32, ch: char)
      ensures layout == [] && number == start && startChar == ch
    {
      layout := [];
      number := start;
      startChar := ch;
    }

    /** Wraps `e` in a bullet point labelled by the current counter and
        appends it. The source unwraps `char::from_u32`, so the code point
        must be a valid `char`. */
    method Push(e: Elem)
      requires IsScalar(startChar as int + number)
      modifies this
      ensures startChar == old(startChar) && number == old(number) + 1
      ensures layout == old(layout) + [BulletPoint(Label(old(startChar), old(number)), e)]
    {
      var point := BulletPoint(Label(startChar, number), e);
      layout := layout + [point];
      number := number + 1;
    }

    /** The list as an element of the document. */
    function AsElement(): Elem
      reads this
    {
      AlphaList(layout)
    }
  }
}

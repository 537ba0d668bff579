/** The outside world the generator talks to: the PDF library's document
    (an append-only log of elements plus page settings), the random source
    behind `shuffle`, the file the document is rendered to, and the outcomes
    of the calls that can fail. */
module Backend {
  import opened Prelude
  import opened Settings
  import opened PdfElements

  datatype FontFamily = FontFamily(dir: string, name: string)

  /** What the outside world does on one generation: whether loading the fonts
      fails, whether writing the file fails, and the wall-clock time taken
      (in nanoseconds) when it all succeeds. */
  datatype IoOutcome = IoOutcome(fontError: Option<PdfError>, writeError: Option<PdfError>, elapsed: nat)

  predicate Succeeds(io: IoOutcome) {
    io.fontError.None? && io.writeError.None?
  }

  /** `fonts::from_files(dir, name, None)`. */
  function FromFiles(dir: string, name: string, io: IoOutcome): (r: Result<FontFamily, PdfError>)
    ensures r.Failure? <==> io.fontError.Some?
  {
    match io.fontError
    case Some(e) => Failure(e)
    case None => Success(FontFamily(dir, name))
  }

  /** The page settings of a document. */
  datatype Page = Page(
    paperSize: Option<Size>,
    title: string,
    margins: Option<nat>,
    fontSize: Option<nat>)

  /** What ends up in a written PDF file. */
  datatype PdfFile = PdfFile(page: Page, body: seq<Elem>)

  /** The library's `Document`: page settings and the elements pushed so far. */
  class Document {
    var font: FontFamily
    var page: Page
    var elems: seq<Elem>

    function Snapshot(): PdfFile
      reads this
    {
      PdfFile(page, elems)
    }

    constructor (font: FontFamily)
      ensures this.font == font && page == Page(None, "", None, None) && elems == []
    {
      this.font := font;
      page := Page(None, "", None, None);
      elems := [];
    }

    method Push(e: Elem)
      modifies this
      ensures font == old(font) && page == old(page) && elems == old(elems) + [e]
    {
      elems := elems + [e];
    }

    method SetFontSize(n: nat)
      modifies this
      ensures font == old(font) && page == old(page).(fontSize := Some(n)) && elems == old(elems)
    {
      page := page.(fontSize := Some(n));
    }

    method SetPaperSize(p: PaperSize)
      modifies this
      ensures font == old(font) && page == old(page).(paperSize := Some(ToSize(p))) && elems == old(elems)
    {
      page := page.(paperSize := Some(ToSize(p)));
    }

    method SetTitle(t: string)
      modifies this
      ensures font == old(font) && page == old(page).(title := t) && elems == old(elems)
    {
      page := page.(title := t);
    }

    /** A `SimplePageDecorator` with the same margin on every side. */
    method SetPageMargins(m: nat)
      modifies this
      ensures font == old(font) && page == old(page).(margins := Some(m)) && elems == old(elems)
    {
      page := page.(margins := Some(m));
    }

    /** `render_to_file(path)`: on success the file holds this document. */
    method RenderToFile(fs: FileSystem, path: string, io: IoOutcome) returns (r: Result<(), PdfError>)
      modifies fs
      ensures io.writeError.None? ==> r == Success(()) && fs.files == old(fs.files)[path := Snapshot()]
      ensures io.writeError.Some? ==> r == Failure(io.writeError.value)
      ensures io.writeError.Some? ==> fs.files - {path} == old(fs.files) - {path}
    {
      if io.writeError.Some? {
        r := Failure(io.writeError.value);
      } else {
        fs.files := fs.files[path := Snapshot()];
        r := Success(());
      }
    }
  }

  /** The files written so far. */
  class FileSystem {
    var files: map<string, PdfFile>

    constructor ()
      ensures files == map[]
    {
      files := map[];
    }
  }

  /** The random source: a fixed stream of raw draws and the position reached in it. */
  class Rng {
    const draws: nat -> nat
    var pos: nat

    constructor (draws: nat -> nat)
      ensures this.draws == draws && pos == 0
    {
      this.draws := draws;
      pos := 0;
    }

    /** A uniform index below `bound`, as `gen_index` draws it. */
    method GenIndex(bound: nat) returns (j: nat)
      requires bound >= 1
      modifies this
      ensures j < bound && j == draws(old(pos)) % bound && pos == old(pos) + 1
    {
      j := draws(pos) % bound;
      pos := pos + 1;
    }

    /** `SliceRandom::shuffle`: Fisher-Yates from the last index down. */
    method Shuffle<T>(a: array<T>)
      modifies this, a
      ensures multiset(a[..]) == old(multiset(a[..]))
      ensures pos == old(pos) + (if a.Length == 0 then 0 else a.Length - 1)
    {
      var i := a.Length;
      while i > 1
        invariant 0 <= i <= a.Length
        invariant multiset(a[..]) == old(multiset(a[..]))
        invariant pos == old(pos) + (if a.Length == 0 then 0 else a.Length - (if i == 0 then 1 else i))
      {
        i := i - 1;
        var j := GenIndex(i + 1);
        a[i], a[j] := a[j], a[i];
      }
    }
  }
}

/** The downloadable copy of the answers: a document in which a title line
    is followed by one "key: value" line per stored field, in the order the
    fields were first set, each line ten units below the previous one. */
module Export {
  import opened FormData

  /** One `doc.text(text, x, y)` call. */
  datatype Line = Line(text: string, x: int, y: int)

  /** What the rendering leaves behind: the font size set, the lines drawn
      in order, and the name the file is saved under. */
  datatype Document = Document(fontSize: int, lines: seq<Line>, fileName: string)

  const Title: string := "AI Readiness Assessment Responses"
  const FileName: string := "AI_Readiness_Assessment.pdf"
  const FontSize: int := 14
  /** Left margin of every line. */
  const Margin: int := 20
  const TitleY: int := 20
  /** Where the first entry goes, and the step between entries. */
  const FirstEntryY: int := 30
  const LineStep: int := 10

  /** The text drawn for one entry, `${key}: ${value}`. */
  function EntryText(x: Entry): string
  {
    x.key + ": " + x.value
  }

  /** The entry lines, starting at height `y` and stepping down. */
  function EntryLines(e: seq<Entry>, y: int): seq<Line>
  {
    if e == [] then [] else [Line(EntryText(e[0]), Margin, y)] + EntryLines(e[1..], y + LineStep)
  }

  /** The document the export produces for the answers `e`. */
  function Rendered(e: seq<Entry>): Document
  {
    Document(FontSize, [Line(Title, Margin, TitleY)] + EntryLines(e, FirstEntryY), FileName)
  }

  /** Entry `i` is drawn at the margin, `i` steps below where the entries
      start. */
  lemma {:induction false} EntryLinesAt(e: seq<Entry>, y: int)
    ensures |EntryLines(e, y)| == |e|
    ensures forall i :: 0 <= i < |e| ==> EntryLines(e, y)[i] == Line(EntryText(e[i]), Margin, y + LineStep * i)
  {
    if e != [] {
      EntryLinesAt(e[1..], y + LineStep);
      var r := EntryLines(e, y);
      forall i | 0 < i < |e| ensures r[i] == Line(EntryText(e[i]), Margin, y + LineStep * i) {
        assert r[i] == EntryLines(e[1..], y + LineStep)[i - 1];
        assert e[1..][i - 1] == e[i];
      }
    }
  }

  /** The rendered document: title at height 20, entry `i` as "key: value"
      at height 30 + 10·i, and nothing else; heights strictly increase, so
      the lines come out in entry order. */
  lemma RenderedLayout(e: seq<Entry>)
    ensures |Rendered(e).lines| == |e| + 1
    ensures Rendered(e).lines[0] == Line("AI Readiness Assessment Responses", 20, 20)
    ensures forall i :: 0 <= i < |e| ==> Rendered(e).lines[i + 1] == Line(e[i].key + ": " + e[i].value, 20, 30 + 10 * i)
    ensures forall i, j :: 0 <= i < j < |Rendered(e).lines| ==> Rendered(e).lines[i].y < Rendered(e).lines[j].y
  {
    EntryLinesAt(e, FirstEntryY);
    var ls := Rendered(e).lines;
    forall i | 0 <= i < |ls| ensures ls[i].y == 20 + 10 * i {
      if i > 0 {
        assert ls[i] == EntryLines(e, FirstEntryY)[i - 1];
      }
    }
  }

  /** `generatePDF`: sets the font, draws the title, then walks the entries
      drawing each one and moving down by ten. */
  method Render(e: seq<Entry>) returns (doc: Document)
    ensures doc == Rendered(e)
  {
    var lines := [Line(Title, Margin, TitleY)];
    var y := FirstEntryY;
    var i := 0;
    EntryLinesAt(e, FirstEntryY);
    while i < |e|
      invariant 0 <= i <= |e|
      invariant y == FirstEntryY + LineStep * i
      invariant |lines| == i + 1
      invariant lines[0] == Line(Title, Margin, TitleY)
      invariant forall j :: 0 <= j < i ==> lines[j + 1] == EntryLines(e, FirstEntryY)[j]
    {
      lines := lines + [Line(EntryText(e[i]), Margin, y)];
      y := y + LineStep;
      i := i + 1;
    }
    assert lines == Rendered(e).lines;
    doc := Document(FontSize, lines, FileName);
  }
}

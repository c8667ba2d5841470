/**
 * The editor of `components/PDFEditor.tsx`: which view a tool opens, the
 * initial drawing mode, and the zoom, page and comment state.
 */
module PdfEditor {
  import opened Strings

  /** The processing view is chosen when the tool name mentions one of these (line 154). */
  const ProcessingWords: seq<string> := ["Compress", "Merge", "Split", "Convert", "to", "OCR"]
  /** Words tested inside the same callback, for every element of the list. */
  const ExportWords: seq<string> := ["Word", "Excel", "JPG"]

  /** `isProcessingTool`: the `some` callback of line 154 holds for some element of the list. */
  predicate IsProcessingTool(tool: string) {
    exists t :: t in ProcessingWords && (Contains(tool, t) || exists w :: w in ExportWords && Contains(tool, w))
  }

  /** The editor renders the processing view instead of the canvas. */
  function UsesProcessingView(tool: string): (r: bool)
    ensures r <==> (tool != "OCR" &&
      (Contains(tool, "Compress") || Contains(tool, "Merge") || Contains(tool, "Split") ||
       Contains(tool, "Convert") || Contains(tool, "to") || Contains(tool, "OCR") ||
       Contains(tool, "Word") || Contains(tool, "Excel") || Contains(tool, "JPG")))
  {
    assert "Compress" in ProcessingWords;
    IsProcessingTool(tool) && tool != "OCR"
  }

  /** "PDF to Word" and the other conversions open the processing view. */
  lemma ConversionNameProcessed()
    ensures UsesProcessingView("PDF to Word")
  {
    ContainsIff("PDF to Word", "to");
    assert OccursAt("PDF to Word", "to", 4);
  }

  /** "OCR PDF" is processed, while the bare name "OCR" opens the editor. */
  lemma OcrRouting()
    ensures UsesProcessingView("OCR PDF")
    ensures !UsesProcessingView("OCR")
  {
    assert "OCR PDF"[..3] == "OCR";
  }

  lemma EditMissesMergeWords()
    ensures !Contains("Edit", "Compress") && !Contains("Edit", "Merge") && !Contains("Edit", "Split")
  {
    ContainsKeepsElements("Edit", "Compress", 'C');
    ContainsKeepsElements("Edit", "Merge", 'M');
    ContainsKeepsElements("Edit", "Split", 'S');
  }

  lemma EditMissesConvertWords()
    ensures !Contains("Edit", "Convert") && !Contains("Edit", "to") && !Contains("Edit", "OCR")
  {
    ContainsKeepsElements("Edit", "Convert", 'C');
    ContainsKeepsElements("Edit", "to", 'o');
    ContainsKeepsElements("Edit", "OCR", 'O');
  }

  lemma EditMissesExportWords()
    ensures !Contains("Edit", "Word") && !Contains("Edit", "Excel") && !Contains("Edit", "JPG")
  {
    ContainsKeepsElements("Edit", "Word", 'W');
    ContainsKeepsElements("Edit", "Excel", 'x');
    ContainsKeepsElements("Edit", "JPG", 'J');
  }

  /** "Edit" mentions none of the words and opens the editor. */
  lemma EditNotProcessed()
    ensures !UsesProcessingView("Edit")
  {
    EditMissesMergeWords();
    EditMissesConvertWords();
    EditMissesExportWords();
  }

  datatype Mode = Select | Text | Draw | Highlight

  /** The mode after the mount effect of lines 169-172. */
  function InitialMode(tool: string): (m: Mode)
    ensures m == Draw <==> tool == "Fill & Sign"
    ensures m == Text <==> tool == "Edit"
    ensures m == Select <==> tool != "Fill & Sign" && tool != "Edit"
  {
    if tool == "Fill & Sign" then Draw
    else if tool == "Edit" then Text
    else Select
  }

  const MinZoom: int := 50
  const MaxZoom: int := 300
  const ZoomStep: int := 10
  const PageCount: int := 4

  predicate ZoomOk(z: int) {
    MinZoom <= z <= MaxZoom && z % ZoomStep == 0
  }

  predicate PageOk(p: int) {
    1 <= p <= PageCount
  }

  /** `setZoom(z => Math.min(z + 10, 300))`. */
  function ZoomIn(z: int): (r: int)
    ensures ZoomOk(z) ==> ZoomOk(r)
    ensures r <= MaxZoom && (z <= MaxZoom ==> r >= z)
    ensures z < MaxZoom - ZoomStep ==> r == z + ZoomStep
    ensures z >= MaxZoom - ZoomStep ==> r == MaxZoom
  {
    if z + ZoomStep < MaxZoom then z + ZoomStep else MaxZoom
  }

  /** `setZoom(z => Math.max(z - 10, 50))`. */
  function ZoomOut(z: int): (r: int)
    ensures ZoomOk(z) ==> ZoomOk(r)
    ensures r >= MinZoom && (z >= MinZoom ==> r <= z)
    ensures z > MinZoom + ZoomStep ==> r == z - ZoomStep
    ensures z <= MinZoom + ZoomStep ==> r == MinZoom
  {
    if z - ZoomStep > MinZoom then z - ZoomStep else MinZoom
  }

  /** `setPage(p => Math.max(p - 1, 1))`. */
  function PrevPage(p: int): (r: int)
    ensures PageOk(p) ==> PageOk(r)
    ensures PageOk(p) && p > 1 ==> r == p - 1
    ensures p <= 2 ==> r == 1
    ensures r >= 1
  {
    if p - 1 > 1 then p - 1 else 1
  }

  /** `setPage(p => Math.min(p + 1, 4))`. */
  function NextPage(p: int): (r: int)
    ensures PageOk(p) ==> PageOk(r)
    ensures PageOk(p) && p < PageCount ==> r == p + 1
    ensures p >= PageCount - 1 ==> r == PageCount
    ensures r <= PageCount
  {
    if p + 1 < PageCount then p + 1 else PageCount
  }

  datatype ZoomAction = In | Out

  /** The zoom after a sequence of zoom clicks. */
  function ApplyZoom(z: int, clicks: seq<ZoomAction>): int
    decreases |clicks|
  {
    if clicks == [] then z
    else ApplyZoom(if clicks[0] == In then ZoomIn(z) else ZoomOut(z), clicks[1..])
  }

  /** From any valid zoom, in particular 100, every click sequence stays in [50, 300] on multiples of 10. */
  lemma {:induction false} ZoomStaysValid(z: int, clicks: seq<ZoomAction>)
    requires ZoomOk(z)
    ensures ZoomOk(ApplyZoom(z, clicks))
    decreases |clicks|
  {
    if clicks != [] {
      ZoomStaysValid(if clicks[0] == In then ZoomIn(z) else ZoomOut(z), clicks[1..]);
    }
  }

  datatype PageAction = Prev | Next | Thumbnail(num: int)

  /** The thumbnails of lines 254-258 offer pages 1 to 4. */
  predicate ThumbnailsOnly(clicks: seq<PageAction>) {
    forall i :: 0 <= i < |clicks| ==> (clicks[i].Thumbnail? ==> PageOk(clicks[i].num))
  }

  /** The page after a sequence of page clicks. */
  function ApplyPage(p: int, clicks: seq<PageAction>): int
    decreases |clicks|
  {
    if clicks == [] then p
    else
      var next := match clicks[0]
        case Prev => PrevPage(p)
        case Next => NextPage(p)
        case Thumbnail(num) => num;
      ApplyPage(next, clicks[1..])
  }

  /** From any page in 1 to 4, in particular page 1, every sequence of page clicks stays within pages 1 to 4. */
  lemma {:induction false} PageStaysValid(p: int, clicks: seq<PageAction>)
    requires PageOk(p) && ThumbnailsOnly(clicks)
    ensures PageOk(ApplyPage(p, clicks))
    decreases |clicks|
  {
    if clicks != [] {
      var next := match clicks[0]
        case Prev => PrevPage(p)
        case Next => NextPage(p)
        case Thumbnail(num) => num;
      assert ThumbnailsOnly(clicks[1..]) by {
        forall i | 0 <= i < |clicks[1..]| ensures clicks[1..][i].Thumbnail? ==> PageOk(clicks[1..][i].num) {
          assert clicks[1..][i] == clicks[i + 1];
        }
      }
      PageStaysValid(next, clicks[1..]);
    }
  }

  datatype Comment = Comment(id: string, user: string, text: string, time: string)

  /** The comment `addComment` creates; its id is random in the source and given here. */
  function NewComment(id: string): Comment {
    Comment(id, "You", "Need to review this section.", "Just now")
  }

  /** The canvas editor's state (the processing view keeps none of it). */
  class Editor {
    const fileName: string
    const tool: string
    var mode: Mode
    var zoom: int
    var page: int
    var comments: seq<Comment>

    ghost predicate Valid()
      reads this
    {
      ZoomOk(zoom) && PageOk(page)
    }

    constructor (fileName: string, tool: string)
      requires !UsesProcessingView(tool)
      ensures Valid()
      ensures this.fileName == fileName && this.tool == tool
      ensures mode == InitialMode(tool) && zoom == 100 && page == 1 && comments == []
    {
      this.fileName := fileName;
      this.tool := tool;
      mode := InitialMode(tool);
      zoom := 100;
      page := 1;
      comments := [];
    }

    /** The toolbar buttons of lines 224-237. */
    method SetMode(m: Mode)
      requires Valid()
      modifies this`mode
      ensures Valid() && mode == m
    {
      mode := m;
    }

    method ZoomInClick()
      requires Valid()
      modifies this`zoom
      ensures Valid() && zoom == ZoomIn(old(zoom))
    {
      zoom := ZoomIn(zoom);
    }

    method ZoomOutClick()
      requires Valid()
      modifies this`zoom
      ensures Valid() && zoom == ZoomOut(old(zoom))
    {
      zoom := ZoomOut(zoom);
    }

    method PrevClick()
      requires Valid()
      modifies this`page
      ensures Valid() && page == PrevPage(old(page))
    {
      page := PrevPage(page);
    }

    method NextClick()
      requires Valid()
      modifies this`page
      ensures Valid() && page == NextPage(old(page))
    {
      page := NextPage(page);
    }

    /** A thumbnail click; the thumbnails are pages 1 to 4. */
    method SelectPage(num: int)
      requires Valid() && PageOk(num)
      modifies this`page
      ensures Valid() && page == num
    {
      page := num;
    }

    /** `addComment`: appends one comment and keeps the earlier ones in order. */
    method AddComment(id: string)
      requires Valid()
      modifies this`comments
      ensures Valid()
      ensures comments == old(comments) + [NewComment(id)]
      ensures |comments| == |old(comments)| + 1 && comments[..|old(comments)|] == old(comments)
    {
      comments := comments + [NewComment(id)];
    }
  }
}

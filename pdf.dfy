/**
 * The part of the fpdf canvas that cmd/root.go drives. The canvas is kept
 * as the ordered log of the calls made on it; what fpdf does with them
 * (line wrapping, font metrics, placement, serialisation) is not modelled.
 */
module Pdf {
  import opened Wrappers

  /**
   * Font sizes and heights, named by how cmd/root.go derives them from the
   * configured font size instead of by their floating-point values.
   */
  datatype Size =
    | FontSize        // the configured font size
    | TitleSize       // 1.5 times the font size
    | LineHeight      // 0.45 times the font size
    | DoubleLine      // twice the line height
    | Points(n: int)  // a literal number written in the source

  /** One call on the canvas. */
  datatype Op =
    | AddFont(family: string, style: string, file: string)
    | SetFont(family: string, style: string, size: Size)
    | SetFooter(pageNumbers: bool)
    | AddPage
    | SetFontSize(size: Size)
    | SetY(y: Size)
    | Cell(text: string, height: Size, align: string)
    | PageNumberCell(page: nat, height: Size, align: string)
    | MultiCell(text: string, height: Size, align: string)
    | Ln(height: Size)
    | Output(path: string)

  /** A canvas as created by `fpdf.New`, with every call made on it since. */
  datatype Document = Document(orientation: string, unit: string, paper: string, ops: seq<Op>)

  /** The number of pages of a canvas: one per AddPage. */
  function Pages(ops: seq<Op>): nat
  {
    if ops == [] then 0
    else (if ops[0] == AddPage then 1 else 0) + Pages(ops[1..])
  }

  lemma {:induction false} PagesAppend(a: seq<Op>, b: seq<Op>)
    ensures Pages(a + b) == Pages(a) + Pages(b)
  {
    if a == [] {
      assert a + b == b;
    } else {
      assert (a + b)[1..] == a[1..] + b;
      PagesAppend(a[1..], b);
    }
  }

  /** The texts of the wrapped blocks, in the order they were written. */
  function Blocks(ops: seq<Op>): (texts: seq<string>)
    ensures |texts| <= |ops|
  {
    if ops == [] then []
    else (if ops[0].MultiCell? then [ops[0].text] else []) + Blocks(ops[1..])
  }

  lemma {:induction false} BlocksAppend(a: seq<Op>, b: seq<Op>)
    ensures Blocks(a + b) == Blocks(a) + Blocks(b)
  {
    if a == [] {
      assert a + b == b;
    } else {
      assert (a + b)[0] == a[0];
      assert (a + b)[1..] == a[1..] + b;
      BlocksAppend(a[1..], b);
    }
  }

  /** The number of times the canvas was written out. */
  function Outputs(ops: seq<Op>): nat
  {
    if ops == [] then 0
    else (if ops[0].Output? then 1 else 0) + Outputs(ops[1..])
  }

  lemma {:induction false} OutputsAppend(a: seq<Op>, b: seq<Op>)
    ensures Outputs(a + b) == Outputs(a) + Outputs(b)
  {
    if a == [] {
      assert a + b == b;
    } else {
      assert (a + b)[1..] == a[1..] + b;
      OutputsAppend(a[1..], b);
    }
  }

  /**
   * The footer callback installed by both builders, run by fpdf on each
   * page: the right-aligned page number when page numbering is on, nothing
   * otherwise.
   */
  function Footer(pageNumbers: bool, pageNo: nat): (r: seq<Op>)
    ensures r == [] <==> !pageNumbers
    ensures forall k :: 0 <= k < |r| && r[k].PageNumberCell? ==> r[k].page == pageNo && r[k].align == "R"
    ensures pageNumbers ==> exists k :: 0 <= k < |r| && r[k].PageNumberCell?
    ensures Blocks(r) == [] && Pages(r) == 0
  {
    if pageNumbers then
      var r := [SetY(Points(-15)), SetFont("Arial", "I", Points(8)), PageNumberCell(pageNo, Points(10), "R")];
      assert r[2].PageNumberCell?;
      assert Blocks(r) == Blocks(r[1..]) == Blocks(r[2..]) == Blocks([]);
      assert Pages(r) == Pages(r[1..]) == Pages(r[2..]) == Pages([]);
      r
    else []
  }

  /** The fpdf canvas, as the log of the calls made on it. */
  class Canvas {
    const orientation: string
    const unit: string
    const paper: string
    var ops: seq<Op>

    /** `fpdf.New`: a canvas with no pages yet. */
    constructor (orientation: string, unit: string, paper: string)
      ensures Contents() == Document(orientation, unit, paper, [])
    {
      this.orientation := orientation;
      this.unit := unit;
      this.paper := paper;
      ops := [];
    }

    function Contents(): Document
      reads this
    {
      Document(orientation, unit, paper, ops)
    }

    method AddFont(family: string, style: string, file: string)
      modifies this
      ensures ops == old(ops) + [Op.AddFont(family, style, file)]
    {
      ops := ops + [Op.AddFont(family, style, file)];
    }

    method SetFont(family: string, style: string, size: Size)
      modifies this
      ensures ops == old(ops) + [Op.SetFont(family, style, size)]
    {
      ops := ops + [Op.SetFont(family, style, size)];
    }

    /** `SetFooterFunc` with the builders' footer callback. */
    method SetFooterFunc(pageNumbers: bool)
      modifies this
      ensures ops == old(ops) + [SetFooter(pageNumbers)]
    {
      ops := ops + [SetFooter(pageNumbers)];
    }

    method AddPage()
      modifies this
      ensures ops == old(ops) + [Op.AddPage]
    {
      ops := ops + [Op.AddPage];
    }

    method SetFontSize(size: Size)
      modifies this
      ensures ops == old(ops) + [Op.SetFontSize(size)]
    {
      ops := ops + [Op.SetFontSize(size)];
    }

    /** `CellFormat` with full width and the cursor moved to the next line. */
    method CellFormat(text: string, height: Size, align: string)
      modifies this
      ensures ops == old(ops) + [Cell(text, height, align)]
    {
      ops := ops + [Cell(text, height, align)];
    }

    /** `MultiCell` with full width: the text wrapped at the printable width. */
    method MultiCell(text: string, height: Size, align: string)
      modifies this
      ensures ops == old(ops) + [Op.MultiCell(text, height, align)]
    {
      ops := ops + [Op.MultiCell(text, height, align)];
    }

    method Ln(height: Size)
      modifies this
      ensures ops == old(ops) + [Op.Ln(height)]
    {
      ops := ops + [Op.Ln(height)];
    }

    /**
     * `OutputFileAndClose`: the document is written to `path`; `outcome` is
     * what the write answers (None on success, otherwise the error, which may
     * be one fpdf recorded earlier and reports only here).
     */
    method OutputFileAndClose(path: string, outcome: Option<string>) returns (err: Option<string>)
      modifies this
      ensures err == outcome
      ensures ops == old(ops) + [Output(path)]
    {
      ops := ops + [Output(path)];
      err := outcome;
    }
  }
}

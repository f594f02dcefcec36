/**
 * The two document builders of cmd/root.go, `createPDFFromContent` (text
 * already in memory) and `createPDF` (one text per input file), as the
 * calls they make on the canvas and the lines they print.
 */
module Builder {
  import opened Wrappers
  import opened Fonts
  import opened Pdf

  /** The parameters both builders receive from `run`. */
  datatype Options = Options(
    title: string,
    paper: string,
    fontSize: real,
    pageBreaks: bool,
    pageNumbers: bool,
    output: string,
    font: string,
    landscape: bool,
    openPdfFile: bool)

  /** A line printed by the program. */
  datatype Message =
    | ReadFailed(path: string, err: string)   // "Error reading file ..."
    | FontNotSet(fontErr: FontError)          // "Error setting font: ..."
    | WriteFailed(err: string)                // "Error writing PDF: ..."
    | Created(path: string)                   // "PDF created: ..."
    | Opening(path: string)                   // printed by the openPDF placeholder
    | StdinFailed(err: string)                // "Error reading from stdin: ..." on standard error

  /** What one run of a builder leaves behind: the canvas, if one was created, and the printed lines. */
  datatype Report = Report(doc: Option<Document>, console: seq<Message>)

  /** The orientation code handed to `fpdf.New`. */
  function Orientation(landscape: bool): (code: string)
    ensures code == "L" <==> landscape
    ensures code == "P" <==> !landscape
  {
    if landscape then "L" else "P"
  }

  /** The calls that write a title: a centred cell at 1.5 times the font size, then a gap of one font size. */
  function TitleOps(title: string): (r: seq<Op>)
    ensures r == [] <==> title == ""
  {
    if title == "" then []
    else [SetFontSize(TitleSize), Cell(title, TitleSize, "C"), SetFontSize(FontSize), Ln(FontSize)]
  }

  /** Font registration and selection, the footer callback and the first page. */
  function Setup(o: Options): seq<Op>
    requires Supported(o.font)
  {
    [Op.AddFont(o.font, "", FontDefinition(o.font).value), Op.SetFont(o.font, "", FontSize), SetFooter(o.pageNumbers), AddPage]
  }

  /** Everything a builder does to the canvas before the first text: the setup, then the title. */
  function Preamble(o: Options): seq<Op>
    requires Supported(o.font)
  {
    Setup(o) + TitleOps(o.title)
  }

  /** The canvas right after the font was added: the preamble, or nothing when the font is unsupported. */
  function Opened(o: Options): Document
  {
    Document(Orientation(o.landscape), "mm", o.paper, if Supported(o.font) then Preamble(o) else [])
  }

  /** What follows the text of unit `i` of `n`: a new page between units in page-break mode, spacing otherwise. */
  function Separator(i: int, n: int, pageBreaks: bool): (op: Op)
    ensures op == AddPage <==> pageBreaks && i < n - 1
    ensures op != AddPage ==> op == Ln(DoubleLine)
  {
    if pageBreaks && i < n - 1 then AddPage else Ln(DoubleLine)
  }

  /** The calls for unit `i` of `n`: its text as a wrapped block, then the separator. */
  function UnitOps(content: string, i: int, n: int, pageBreaks: bool): seq<Op>
  {
    [Op.MultiCell(content, LineHeight, ""), Separator(i, n, pageBreaks)]
  }

  /** The calls `createPDFFromContent` makes for the first `k` texts. */
  function ContentBody(contents: seq<string>, k: nat, pageBreaks: bool): seq<Op>
    requires k <= |contents|
  {
    if k == 0 then []
    else ContentBody(contents, k - 1, pageBreaks) + UnitOps(contents[k - 1], k - 1, |contents|, pageBreaks)
  }

  /** The calls for the file at position `i` of `n`: those of its text, or none when it could not be read. */
  function FileOps(result: Result<string, string>, i: int, n: int, pageBreaks: bool): seq<Op>
  {
    match result
    case Ok(content) => UnitOps(content, i, n, pageBreaks)
    case Err(_) => []
  }

  /**
   * The calls `createPDF` makes for the first `k` files: nothing for a file
   * that could not be read, and the separator test still counts positions
   * in the whole file list.
   */
  function FileBody(results: seq<Result<string, string>>, k: nat, pageBreaks: bool): seq<Op>
    requires k <= |results|
  {
    if k == 0 then []
    else FileBody(results, k - 1, pageBreaks) + FileOps(results[k - 1], k - 1, |results|, pageBreaks)
  }

  /** The line printed for the file at `path`: none when it was read, the error otherwise. */
  function ReadError(path: string, result: Result<string, string>): seq<Message>
  {
    match result
    case Ok(_) => []
    case Err(e) => [ReadFailed(path, e)]
  }

  /** The lines `createPDF` prints for the unreadable files among the first `k`. */
  function ReadErrors(files: seq<string>, results: seq<Result<string, string>>, k: nat): seq<Message>
    requires |results| == |files| && k <= |files|
  {
    if k == 0 then []
    else ReadErrors(files, results, k - 1) + ReadError(files[k - 1], results[k - 1])
  }

  /** The texts of the files that could be read, in file order. */
  function Successes(results: seq<Result<string, string>>): seq<string>
  {
    if results == [] then []
    else
      Successes(results[..|results| - 1])
      + match results[|results| - 1]
        case Ok(content) => [content]
        case Err(_) => []
  }

  /**
   * What is printed once the canvas has been written: the write error, or
   * "PDF created" followed, when asked for, by the openPDF line.
   */
  function Completion(output: string, openPdfFile: bool, writeError: Option<string>): (r: seq<Message>)
    ensures writeError.Some? ==> r == [WriteFailed(writeError.value)]
    ensures writeError.None? ==> |r| >= 1 && r[0] == Created(output)
    ensures Opening(output) in r <==> writeError.None? && openPdfFile
    ensures forall j :: 0 <= j < |r| && r[j].Opening? ==> j > 0 && r[j - 1] == Created(output)
  {
    match writeError
    case Some(e) => [WriteFailed(e)]
    case None => [Created(output)] + (if openPdfFile then [Opening(output)] else [])
  }

  /**
   * The outcome of either builder from the canvas calls and printed lines
   * of its loop: it stops after the font error, otherwise it writes the
   * preamble, the body and the output call.
   */
  function Build(o: Options, body: seq<Op>, readErrors: seq<Message>, writeError: Option<string>): Report
  {
    var start := Opened(o);
    if !Supported(o.font) then Report(Some(start), [FontNotSet(UnsupportedFont(o.font))])
    else Report(Some(start.(ops := start.ops + body + [Output(o.output)])), readErrors + Completion(o.output, o.openPdfFile, writeError))
  }

  /** The specification of `createPDFFromContent`. */
  function ContentReport(contents: seq<string>, o: Options, writeError: Option<string>): Report
  {
    Build(o, ContentBody(contents, |contents|, o.pageBreaks), [], writeError)
  }

  /** The specification of `createPDF`; `results[i]` is what reading `files[i]` gives. */
  function FileReport(files: seq<string>, results: seq<Result<string, string>>, o: Options, writeError: Option<string>): Report
    requires |results| == |files|
  {
    Build(o, FileBody(results, |results|, o.pageBreaks), ReadErrors(files, results, |results|), writeError)
  }

  /** `addFont`: registers the definition of a supported family, or returns the error. */
  method AddFont(pdf: Canvas, font: string) returns (err: Option<FontError>)
    modifies pdf
    ensures err.None? <==> Supported(font)
    ensures err.Some? ==> err.value == UnsupportedFont(font) && pdf.ops == old(pdf.ops)
    ensures err.None? ==> pdf.ops == old(pdf.ops) + [Op.AddFont(font, "", FontDefinition(font).value)]
  {
    if font == "Courier" {
      pdf.AddFont("Courier", "", "courier.json");
    } else if font == "Helvetica" {
      pdf.AddFont("Helvetica", "", "helvetica_1.json");
    } else if font == "Arial" {
      pdf.AddFont("Arial", "", "arial_1.json");
    } else {
      return Some(UnsupportedFont(font));
    }
    return None;
  }

  /**
   * The opening the two builders share: create the canvas, add and select
   * the font (stopping on an unsupported one), install the footer, add the
   * first page and write the title.
   */
  method Begin(o: Options) returns (pdf: Canvas, err: Option<FontError>)
    ensures fresh(pdf)
    ensures err.None? <==> Supported(o.font)
    ensures err.Some? ==> err.value == UnsupportedFont(o.font)
    ensures pdf.Contents() == Opened(o)
  {
    var orientation := "P";
    if o.landscape {
      orientation := "L";
    }
    pdf := new Canvas(orientation, "mm", o.paper);
    err := AddFont(pdf, o.font);
    if err.Some? {
      return;
    }
    pdf.SetFont(o.font, "", FontSize);
    pdf.SetFooterFunc(o.pageNumbers);
    pdf.AddPage();
    assert pdf.ops == Setup(o);
    if o.title != "" {
      pdf.SetFontSize(TitleSize);
      pdf.CellFormat(o.title, TitleSize, "C");
      pdf.SetFontSize(FontSize);
      pdf.Ln(FontSize);
    }
  }

  /** Writes the canvas and prints the outcome; openPDF only after a successful write. */
  method Finish(pdf: Canvas, o: Options, writeError: Option<string>) returns (console: seq<Message>)
    modifies pdf
    ensures pdf.ops == old(pdf.ops) + [Output(o.output)]
    ensures console == Completion(o.output, o.openPdfFile, writeError)
  {
    var err := pdf.OutputFileAndClose(o.output, writeError);
    if err.Some? {
      return [WriteFailed(err.value)];
    }
    console := [Created(o.output)];
    if o.openPdfFile {
      console := console + [Opening(o.output)];
    }
  }

  /** `createPDFFromContent`: one wrapped block per text, in order. */
  method CreatePDFFromContent(contents: seq<string>, o: Options, writeError: Option<string>) returns (r: Report)
    ensures r == ContentReport(contents, o, writeError)
  {
    var pdf, err := Begin(o);
    if err.Some? {
      return Report(Some(pdf.Contents()), [FontNotSet(err.value)]);
    }
    ghost var start := pdf.ops;
    for i := 0 to |contents|
      invariant pdf.ops == start + ContentBody(contents, i, o.pageBreaks)
    {
      pdf.MultiCell(contents[i], LineHeight, "");
      if o.pageBreaks && i < |contents| - 1 {
        pdf.AddPage();
      } else {
        pdf.Ln(DoubleLine);
      }
    }
    var console := Finish(pdf, o, writeError);
    return Report(Some(pdf.Contents()), console);
  }

  /** `createPDF`: one wrapped block per readable file; an unreadable file is reported and skipped. */
  method CreatePDF(files: seq<string>, results: seq<Result<string, string>>, o: Options, writeError: Option<string>)
    returns (r: Report)
    requires |results| == |files|
    ensures r == FileReport(files, results, o, writeError)
  {
    var pdf, err := Begin(o);
    if err.Some? {
      return Report(Some(pdf.Contents()), [FontNotSet(err.value)]);
    }
    ghost var start := pdf.ops;
    var printed: seq<Message> := [];
    for i := 0 to |files|
      invariant pdf.ops == start + FileBody(results, i, o.pageBreaks)
      invariant printed == ReadErrors(files, results, i)
    {
      var content := results[i];
      if content.Err? {
        printed := printed + [ReadFailed(files[i], content.error)];
        assert FileOps(content, i, |results|, o.pageBreaks) == [];
        continue;
      }
      pdf.MultiCell(content.value, LineHeight, "");
      if o.pageBreaks && i < |files| - 1 {
        pdf.AddPage();
      } else {
        pdf.Ln(DoubleLine);
      }
      assert pdf.ops == start + FileBody(results, i, o.pageBreaks) + FileOps(content, i, |results|, o.pageBreaks);
    }
    var console := Finish(pdf, o, writeError);
    return Report(Some(pdf.Contents()), printed + console);
  }
}

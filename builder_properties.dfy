/**
 * What the two builders of cmd/root.go promise about the document they
 * produce: its first page, its title, one block per text, the page breaks,
 * the single write at the end, and the early stop on an unsupported font.
 */
module BuilderProperties {
  import opened Wrappers
  import opened Fonts
  import opened Pdf
  import opened Builder

  /** A title adds a centred cell and a gap, and never a page, a block or a write. */
  lemma TitleShape(title: string)
    ensures Pages(TitleOps(title)) == 0 && Blocks(TitleOps(title)) == [] && Outputs(TitleOps(title)) == 0
    ensures title != "" ==> TitleOps(title)[1] == Cell(title, TitleSize, "C") && TitleOps(title)[3] == Ln(FontSize)
  {
    var r := TitleOps(title);
    if title != "" {
      assert r[1..][1..][1..][1..] == [];
      assert Pages(r) == Pages(r[1..]) == Pages(r[1..][1..]) == Pages(r[1..][1..][1..]) == 0;
      assert Blocks(r) == Blocks(r[1..]) == Blocks(r[1..][1..]) == Blocks(r[1..][1..][1..]) == [];
      assert Outputs(r) == Outputs(r[1..]) == Outputs(r[1..][1..]) == Outputs(r[1..][1..][1..]) == 0;
    }
  }

  /**
   * With an accepted font, before the first text the canvas gets the font,
   * the footer callback and exactly one `AddPage`, then the title.
   */
  lemma PreambleShape(o: Options)
    requires Supported(o.font)
    ensures var r := Preamble(o);
      |r| >= 4 && r[0] == Op.AddFont(o.font, "", FontDefinition(o.font).value)
      && r[1] == Op.SetFont(o.font, "", FontSize) && r[2] == SetFooter(o.pageNumbers) && r[3] == AddPage
      && r[4..] == TitleOps(o.title)
      && Pages(r) == 1 && Blocks(r) == [] && Outputs(r) == 0
  {
    var s, t := Setup(o), TitleOps(o.title);
    assert s[1..][1..][1..][1..] == [];
    assert Pages(s) == Pages(s[1..]) == Pages(s[1..][1..]) == 1 + Pages(s[1..][1..][1..][1..]);
    assert Blocks(s) == Blocks(s[1..]) == Blocks(s[1..][1..]) == Blocks(s[1..][1..][1..]) == [];
    assert Outputs(s) == Outputs(s[1..]) == Outputs(s[1..][1..]) == Outputs(s[1..][1..][1..]) == 0;
    TitleShape(o.title);
    PagesAppend(s, t);
    BlocksAppend(s, t);
    OutputsAppend(s, t);
    assert (s + t)[4..] == t;
  }

  /** The calls of one text: its block, then one page or none, and no write. */
  lemma UnitShape(content: string, i: int, n: int, pageBreaks: bool)
    ensures var r := UnitOps(content, i, n, pageBreaks);
      Blocks(r) == [content] && Outputs(r) == 0
      && Pages(r) == if pageBreaks && i < n - 1 then 1 else 0
  {
    var r := UnitOps(content, i, n, pageBreaks);
    assert r[1..][1..] == [];
    assert Blocks(r) == [content] + Blocks(r[1..]) && Blocks(r[1..]) == [];
    assert Outputs(r[1..]) == 0;
    assert Pages(r) == Pages(r[1..]) == (if r[1] == AddPage then 1 else 0) + Pages(r[1..][1..]);
  }

  /**
   * Text `i` becomes the block at position 2i of the body, and the call after
   * it is a new page exactly when page breaks are on and it is not the last.
   */
  lemma {:induction false} ContentBodyAt(contents: seq<string>, k: nat, pageBreaks: bool, i: nat)
    requires i < k <= |contents|
    ensures |ContentBody(contents, k, pageBreaks)| == 2 * k
    ensures ContentBody(contents, k, pageBreaks)[2 * i] == MultiCell(contents[i], LineHeight, "")
    ensures ContentBody(contents, k, pageBreaks)[2 * i + 1] == Separator(i, |contents|, pageBreaks)
  {
    ContentBodyLength(contents, k - 1, pageBreaks);
    if i < k - 1 {
      ContentBodyAt(contents, k - 1, pageBreaks, i);
    }
  }

  lemma {:induction false} ContentBodyLength(contents: seq<string>, k: nat, pageBreaks: bool)
    requires k <= |contents|
    ensures |ContentBody(contents, k, pageBreaks)| == 2 * k
  {
    if k > 0 {
      ContentBodyLength(contents, k - 1, pageBreaks);
    }
  }

  /** The last text is always followed by double-line spacing, never by a new page. */
  lemma LastTextSpaced(contents: seq<string>, pageBreaks: bool)
    requires |contents| > 0
    ensures var body := ContentBody(contents, |contents|, pageBreaks);
      |body| == 2 * |contents| && body[|body| - 1] == Ln(DoubleLine)
  {
    ContentBodyAt(contents, |contents|, pageBreaks, |contents| - 1);
  }

  /**
   * The body of `createPDFFromContent` writes every text once, in order,
   * never writes the file, and calls `AddPage` once after each text but the last
   * when page breaks are on.
   */
  lemma {:induction false} ContentBodyCounts(contents: seq<string>, k: nat, pageBreaks: bool)
    requires k <= |contents|
    ensures Blocks(ContentBody(contents, k, pageBreaks)) == contents[..k]
    ensures Outputs(ContentBody(contents, k, pageBreaks)) == 0
    ensures !pageBreaks ==> Pages(ContentBody(contents, k, pageBreaks)) == 0
    ensures pageBreaks ==> Pages(ContentBody(contents, k, pageBreaks)) == if k == |contents| && k > 0 then k - 1 else k
  {
    if k > 0 {
      var done, unit := ContentBody(contents, k - 1, pageBreaks), UnitOps(contents[k - 1], k - 1, |contents|, pageBreaks);
      ContentBodyCounts(contents, k - 1, pageBreaks);
      UnitShape(contents[k - 1], k - 1, |contents|, pageBreaks);
      BlocksAppend(done, unit);
      OutputsAppend(done, unit);
      PagesAppend(done, unit);
      assert contents[..k] == contents[..k - 1] + [contents[k - 1]];
    }
  }

  /** The texts that could be read among the first `k` files extend by one file at a time. */
  lemma SuccessesStep(results: seq<Result<string, string>>, k: nat)
    requires k < |results|
    ensures Successes(results[..k + 1]) == Successes(results[..k]) + match results[k] case Ok(c) => [c] case Err(_) => []
  {
    assert results[..k + 1][..k] == results[..k];
  }

  /**
   * The body of `createPDF` writes exactly the texts that could be read, in
   * file order, never writes the file, and with page breaks on calls `AddPage` once
   * for each readable file that is not the last of the list.
   */
  lemma {:induction false} FileBodyCounts(results: seq<Result<string, string>>, k: nat, pageBreaks: bool)
    requires k <= |results|
    ensures Blocks(FileBody(results, k, pageBreaks)) == Successes(results[..k])
    ensures Outputs(FileBody(results, k, pageBreaks)) == 0
    ensures !pageBreaks ==> Pages(FileBody(results, k, pageBreaks)) == 0
    ensures pageBreaks ==> Pages(FileBody(results, k, pageBreaks))
                           == |Successes(results[..if k == |results| && k > 0 then k - 1 else k])|
  {
    if k > 0 {
      var done, unit := FileBody(results, k - 1, pageBreaks), FileOps(results[k - 1], k - 1, |results|, pageBreaks);
      FileBodyCounts(results, k - 1, pageBreaks);
      BlocksAppend(done, unit);
      OutputsAppend(done, unit);
      PagesAppend(done, unit);
      SuccessesStep(results, k - 1);
      if results[k - 1].Ok? {
        UnitShape(results[k - 1].value, k - 1, |results|, pageBreaks);
      }
      if pageBreaks && k == |results| && k > 1 {
        // the last file adds no page, so the count stays at the files before it
        assert Pages(unit) == 0;
      }
    }
  }

  /** When every file was read, the texts read are the file contents, one per file. */
  lemma {:induction false} SuccessesAllRead(results: seq<Result<string, string>>)
    requires forall i :: 0 <= i < |results| ==> results[i].Ok?
    ensures |Successes(results)| == |results|
    ensures forall i :: 0 <= i < |results| ==> Successes(results)[i] == results[i].value
  {
    if results != [] {
      var init := results[..|results| - 1];
      SuccessesAllRead(init);
    }
  }

  /** When every file was read, `createPDF`'s loop makes the calls `createPDFFromContent`'s loop makes. */
  lemma {:induction false} FileBodyAllRead(results: seq<Result<string, string>>, k: nat, pageBreaks: bool)
    requires k <= |results|
    requires forall i :: 0 <= i < |results| ==> results[i].Ok?
    ensures |Successes(results)| == |results|
    ensures FileBody(results, k, pageBreaks) == ContentBody(Successes(results), k, pageBreaks)
  {
    SuccessesAllRead(results);
    if k > 0 {
      FileBodyAllRead(results, k - 1, pageBreaks);
    }
  }

  /** No file-read error is printed for files that were all read. */
  lemma {:induction false} ReadErrorsAllRead(files: seq<string>, results: seq<Result<string, string>>, k: nat)
    requires |results| == |files| && k <= |files|
    requires forall i :: 0 <= i < |results| ==> results[i].Ok?
    ensures ReadErrors(files, results, k) == []
  {
    if k > 0 {
      ReadErrorsAllRead(files, results, k - 1);
    }
  }

  /** The only lines printed by `createPDF`'s loop are file-read errors. */
  lemma {:induction false} ReadErrorsOnlyFailures(files: seq<string>, results: seq<Result<string, string>>, k: nat)
    requires |results| == |files| && k <= |files|
    ensures forall m :: m in ReadErrors(files, results, k) ==> m.ReadFailed?
  {
    if k > 0 {
      ReadErrorsOnlyFailures(files, results, k - 1);
    }
  }

  /**
   * An unsupported font stops either builder before any page, drawing, write
   * or "PDF created" line: the only effect is the font error.
   */
  lemma UnsupportedFontStops(files: seq<string>, results: seq<Result<string, string>>, contents: seq<string>, o: Options, writeError: Option<string>)
    requires |results| == |files|
    requires !Supported(o.font)
    ensures var r := ContentReport(contents, o, writeError);
      r.doc.Some? && r.doc.value.ops == [] && r.console == [FontNotSet(UnsupportedFont(o.font))]
    ensures var r := FileReport(files, results, o, writeError);
      r.doc.Some? && r.doc.value.ops == [] && r.console == [FontNotSet(UnsupportedFont(o.font))]
  {
  }

  /** Both builders create the canvas with the orientation of `--landscape`, millimetres and the paper size. */
  lemma CanvasCreated(files: seq<string>, results: seq<Result<string, string>>, contents: seq<string>, o: Options, writeError: Option<string>)
    requires |results| == |files|
    ensures var d := ContentReport(contents, o, writeError).doc;
      d.Some? && (d.value.orientation == "L" <==> o.landscape) && d.value.unit == "mm" && d.value.paper == o.paper
    ensures var d := FileReport(files, results, o, writeError).doc;
      d.Some? && (d.value.orientation == "L" <==> o.landscape) && d.value.unit == "mm" && d.value.paper == o.paper
  {
  }

  /**
   * With an accepted font, the document of `createPDFFromContent`: one block
   * per text in order, one `AddPage` plus one per page break, and one write,
   * as its last call.
   */
  lemma ContentDocument(contents: seq<string>, o: Options, writeError: Option<string>)
    requires Supported(o.font)
    ensures var ops := ContentReport(contents, o, writeError).doc.value.ops;
      |ops| >= 5 && ops[3] == AddPage
      && Blocks(ops) == contents
      && Pages(ops) == 1 + (if o.pageBreaks && |contents| > 0 then |contents| - 1 else 0)
      && Outputs(ops) == 1 && ops[|ops| - 1] == Output(o.output)
  {
    var pre, body := Preamble(o), ContentBody(contents, |contents|, o.pageBreaks);
    PreambleShape(o);
    ContentBodyCounts(contents, |contents|, o.pageBreaks);
    assert contents[..|contents|] == contents;
    DocumentCounts(pre, body, o.output);
  }

  /** The counts of a document made of a preamble, a body and the final write. */
  lemma DocumentCounts(pre: seq<Op>, body: seq<Op>, output: string)
    ensures var ops := pre + body + [Output(output)];
      Blocks(ops) == Blocks(pre) + Blocks(body)
      && Pages(ops) == Pages(pre) + Pages(body)
      && Outputs(ops) == Outputs(pre) + Outputs(body) + 1
      && ops[|ops| - 1] == Output(output)
  {
    var w := [Output(output)];
    assert Blocks(w) == [] && Pages(w) == 0 && Outputs(w) == 1 by {
      assert w[1..] == [];
    }
    BlocksAppend(pre, body);
    BlocksAppend(pre + body, w);
    PagesAppend(pre, body);
    PagesAppend(pre + body, w);
    OutputsAppend(pre, body);
    OutputsAppend(pre + body, w);
  }

  /**
   * With an accepted font, the document of `createPDF`: one block per
   * readable file in order, one `AddPage` plus, with page breaks on, one per
   * readable file before the last position of the list, and one write, as its
   * last call.
   */
  lemma FileDocument(files: seq<string>, results: seq<Result<string, string>>, o: Options, writeError: Option<string>)
    requires |results| == |files|
    requires Supported(o.font)
    ensures var ops := FileReport(files, results, o, writeError).doc.value.ops;
      |ops| >= 5 && ops[3] == AddPage
      && Blocks(ops) == Successes(results)
      && Pages(ops) == 1 + (if o.pageBreaks && |results| > 0 then |Successes(results[..|results| - 1])| else 0)
      && Outputs(ops) == 1 && ops[|ops| - 1] == Output(o.output)
  {
    var pre, body := Preamble(o), FileBody(results, |results|, o.pageBreaks);
    PreambleShape(o);
    FileBodyCounts(results, |results|, o.pageBreaks);
    assert results[..|results|] == results;
    DocumentCounts(pre, body, o.output);
  }

  /** When every file is read, `createPDF` does exactly what `createPDFFromContent` does on their texts. */
  lemma AllReadSameAsContent(files: seq<string>, results: seq<Result<string, string>>, o: Options, writeError: Option<string>)
    requires |results| == |files|
    requires forall i :: 0 <= i < |results| ==> results[i].Ok?
    ensures FileReport(files, results, o, writeError) == ContentReport(Successes(results), o, writeError)
  {
    FileBodyAllRead(results, |results|, o.pageBreaks);
    ReadErrorsAllRead(files, results, |results|);
  }

  /**
   * "PDF created" is printed exactly when the font was accepted and the
   * write succeeded, and the openPDF line exactly when, in addition,
   * `--open-pdf-file` was given.
   */
  lemma CreatedOnlyAfterWrite(files: seq<string>, results: seq<Result<string, string>>, contents: seq<string>, o: Options, writeError: Option<string>)
    requires |results| == |files|
    ensures var console := FileReport(files, results, o, writeError).console;
      (Created(o.output) in console <==> Supported(o.font) && writeError.None?)
      && (Opening(o.output) in console <==> Supported(o.font) && writeError.None? && o.openPdfFile)
    ensures var console := ContentReport(contents, o, writeError).console;
      (Created(o.output) in console <==> Supported(o.font) && writeError.None?)
      && (Opening(o.output) in console <==> Supported(o.font) && writeError.None? && o.openPdfFile)
  {
    ReadErrorsOnlyFailures(files, results, |results|);
  }

  /**
   * An accepted font is registered by the first call on the canvas, and no
   * font error is printed.
   */
  lemma SupportedFontRegistered(files: seq<string>, results: seq<Result<string, string>>, contents: seq<string>, o: Options, writeError: Option<string>)
    requires |results| == |files|
    requires Supported(o.font)
    ensures var r := ContentReport(contents, o, writeError);
      |r.doc.value.ops| >= 1 && r.doc.value.ops[0] == Op.AddFont(o.font, "", FontDefinition(o.font).value)
      && (forall m :: m in r.console ==> !m.FontNotSet?)
    ensures var r := FileReport(files, results, o, writeError);
      |r.doc.value.ops| >= 1 && r.doc.value.ops[0] == Op.AddFont(o.font, "", FontDefinition(o.font).value)
      && (forall m :: m in r.console ==> !m.FontNotSet?)
  {
    ReadErrorsOnlyFailures(files, results, |results|);
  }

  /**
   * With an accepted font, both builders install the footer callback with
   * `--page-numbers`: the footer of every page draws the page number exactly
   * when it is set.
   */
  lemma FooterFollowsPageNumbers(files: seq<string>, results: seq<Result<string, string>>, contents: seq<string>, o: Options, writeError: Option<string>)
    requires |results| == |files|
    requires Supported(o.font)
    ensures var ops := ContentReport(contents, o, writeError).doc.value.ops;
      |ops| >= 3 && ops[2] == SetFooter(o.pageNumbers)
      && forall page: nat :: Footer(ops[2].pageNumbers, page) != [] <==> o.pageNumbers
    ensures var ops := FileReport(files, results, o, writeError).doc.value.ops;
      |ops| >= 3 && ops[2] == SetFooter(o.pageNumbers)
      && forall page: nat :: Footer(ops[2].pageNumbers, page) != [] <==> o.pageNumbers
  {
    PreambleShape(o);
    assert Preamble(o)[2] == ContentReport(contents, o, writeError).doc.value.ops[2];
    assert Preamble(o)[2] == FileReport(files, results, o, writeError).doc.value.ops[2];
  }

  /** The last call before the final write is the last call of the body, when there is one. */
  lemma BeforeWrite(pre: seq<Op>, body: seq<Op>, output: string)
    requires body != []
    ensures var ops := pre + body + [Output(output)];
      ops[|ops| - 2] == body[|body| - 1] && ops[|ops| - 1] == Output(output)
  {
  }

  /** With page breaks on, a readable file followed by an unreadable last file leaves a page break last. */
  lemma FileBodyEndsWithBreak(results: seq<Result<string, string>>)
    requires |results| >= 2
    requires results[|results| - 1].Err? && results[|results| - 2].Ok?
    ensures var body := FileBody(results, |results|, true);
      body != [] && body[|body| - 1] == AddPage
  {
    var n := |results|;
    assert FileBody(results, n, true) == FileBody(results, n - 1, true);
    assert FileBody(results, n - 1, true) == FileBody(results, n - 2, true) + UnitOps(results[n - 2].value, n - 2, n, true);
  }

  /**
   * With page breaks on, an unreadable last file leaves the page break added
   * after the readable file before it: the document ends with an empty page,
   * where `createPDFFromContent` on the texts read would end with spacing.
   */
  lemma UnreadableLastFileLeavesEmptyPage(files: seq<string>, results: seq<Result<string, string>>, o: Options, writeError: Option<string>)
    requires |results| == |files| >= 2
    requires Supported(o.font) && o.pageBreaks
    requires results[|results| - 1].Err? && results[|results| - 2].Ok?
    ensures var ops := FileReport(files, results, o, writeError).doc.value.ops;
      |ops| >= 2 && ops[|ops| - 2] == AddPage && ops[|ops| - 1] == Output(o.output)
    ensures var ops := ContentReport(Successes(results), o, writeError).doc.value.ops;
      |ops| >= 2 && ops[|ops| - 2] == Ln(DoubleLine) && ops[|ops| - 1] == Output(o.output)
  {
    var n := |results|;
    FileBodyEndsWithBreak(results);
    BeforeWrite(Preamble(o), FileBody(results, n, true), o.output);
    var texts := Successes(results);
    assert |texts| > 0 by {
      assert results[..n] == results;
      SuccessesStep(results, n - 1);
      SuccessesStep(results, n - 2);
    }
    LastTextSpaced(texts, true);
    BeforeWrite(Preamble(o), ContentBody(texts, |texts|, true), o.output);
  }
}

/**
 * What `run` promises as a whole: when the process fails, which font ends up
 * on the canvas, and what a document read from standard input or from files
 * contains.
 */
module CliProperties {
  import opened Wrappers
  import opened Fonts
  import opened Pdf
  import opened Builder
  import opened Stdin
  import opened BuilderProperties
  import opened Cli

  /**
   * The exit status is 1 exactly when no input file is named and standard
   * input cannot be read; then nothing is drawn and only the stdin error is
   * printed. Font and write errors leave the status at 0.
   */
  lemma RunStatus(s: Settings, stdin: Scan, results: seq<Result<string, string>>, writeError: Option<string>)
    requires |results| == |s.inputFiles|
    ensures var out := RunSpec(s, stdin, results, writeError);
      (out.status == 1 <==> |s.inputFiles| == 0 && stdin.err.Some?)
      && (out.status == 0 || out.status == 1)
      && (out.status == 1 ==> out.report == Report(None, [StdinFailed(stdin.err.value)]))
      && (out.status == 0 ==> out.report.doc.Some?)
  {
  }

  /**
   * With `mono` in effect (the default) any `--font` is replaced by Courier,
   * so the font is always accepted and the write is always attempted.
   */
  lemma MonoAlwaysWrites(s: Settings, stdin: Scan, results: seq<Result<string, string>>, writeError: Option<string>)
    requires |results| == |s.inputFiles|
    requires s.mono && !s.proportional
    ensures var out := RunSpec(s, stdin, results, writeError);
      out.status == 0 ==>
        var ops := out.report.doc.value.ops;
        |ops| >= 5 && ops[0] == Op.AddFont("Courier", "", "courier.json")
        && Outputs(ops) == 1 && ops[|ops| - 1] == Output(s.output)
        && (forall m :: m in out.report.console ==> !m.FontNotSet?)
  {
    var o := BuilderOptions(Resolved(s));
    assert o.font == "Courier";
    if |s.inputFiles| == 0 {
      if stdin.err.None? {
        var content := StdinContent(stdin).value;
        SupportedFontRegistered([], [], [content], o, writeError);
        ContentDocument([content], o, writeError);
      }
    } else {
      SupportedFontRegistered(s.inputFiles, results, [], o, writeError);
      FileDocument(s.inputFiles, results, o, writeError);
    }
  }

  /**
   * With monospace not in effect (`--proportional`, or `--mono=false`) and a
   * family other than Courier, Helvetica or Arial, the font error is all that
   * happens once the input is in hand: no `AddPage`, no drawing, no write
   * and no "PDF created".
   */
  lemma UnsupportedFontNoOutput(s: Settings, stdin: Scan, results: seq<Result<string, string>>, writeError: Option<string>)
    requires |results| == |s.inputFiles|
    requires !MonoInEffect(s.mono, s.proportional) && !Supported(s.font)
    ensures var out := RunSpec(s, stdin, results, writeError);
      out.status == 0 ==>
        out.report.doc.value.ops == [] && out.report.console == [FontNotSet(UnsupportedFont(s.font))]
  {
    var o := BuilderOptions(Resolved(s));
    assert o.font == s.font;
    UnsupportedFontStops(s.inputFiles, results, [], o, writeError);
  }

  /**
   * Standard input becomes a single block, the lines joined with a newline
   * after each, with a single `AddPage` whatever `--page-breaks` says,
   * provided the resolved font is accepted.
   */
  lemma StdinDocument(s: Settings, stdin: Scan, writeError: Option<string>)
    requires |s.inputFiles| == 0 && stdin.err.None?
    requires Supported(Resolved(s).font)
    ensures var out := RunSpec(s, stdin, [], writeError);
      var ops := out.report.doc.value.ops;
      out.status == 0
      && Blocks(ops) == [Joined(stdin.lines)]
      && Pages(ops) == 1
      && Outputs(ops) == 1
  {
    var o := BuilderOptions(Resolved(s));
    assert StdinContent(stdin) == Ok(Joined(stdin.lines));
    ContentDocument([Joined(stdin.lines)], o, writeError);
  }

  /** With an accepted font, empty standard input still gives a document: one empty block and a single `AddPage`. */
  lemma EmptyStdinDocument(s: Settings, writeError: Option<string>)
    requires |s.inputFiles| == 0
    requires Supported(Resolved(s).font)
    ensures var out := RunSpec(s, Scan([], None), [], writeError);
      out.status == 0 && Blocks(out.report.doc.value.ops) == [""] && Pages(out.report.doc.value.ops) == 1
  {
    StdinDocument(s, Scan([], None), writeError);
  }

  /**
   * Two readable files with `--page-breaks` and the other flags at their
   * defaults: two blocks in file order and two `AddPage` calls, written once, and
   * "PDF created: output.pdf" the only line printed.
   */
  lemma TwoFilesWithPageBreaks()
    ensures var s := Defaults.(inputFiles := ["a.txt", "b.txt"], pageBreaks := true);
      var out := RunSpec(s, Scan([], None), [Ok("A"), Ok("B")], None);
      var ops := out.report.doc.value.ops;
      out.status == 0
      && Blocks(ops) == ["A", "B"] && Pages(ops) == 2 && Outputs(ops) == 1
      && out.report.console == [Created("output.pdf")]
  {
    var s := Defaults.(inputFiles := ["a.txt", "b.txt"], pageBreaks := true);
    var results: seq<Result<string, string>> := [Ok("A"), Ok("B")];
    var o := BuilderOptions(Resolved(s));
    assert o.font == "Courier";
    FileDocument(s.inputFiles, results, o, None);
    assert Successes(results) == ["A", "B"] by {
      assert results[..1] == [Ok("A")];
      assert results[..1][..0] == [];
    }
    assert results[..|results| - 1] == results[..1];
    ReadErrorsAllRead(s.inputFiles, results, |results|);
  }
}

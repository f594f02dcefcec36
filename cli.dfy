/**
 * The command of cmd/root.go: the package-level flag variables and `run`,
 * which resolves the font, reads standard input when no input files are
 * named, and hands over to one of the two builders.
 */
module Cli {
  import opened Wrappers
  import opened Fonts
  import opened Pdf
  import opened Builder
  import opened Stdin

  /** The values of the package-level flag variables. */
  datatype Settings = Settings(
    title: string,
    paper: string,
    pageBreaks: bool,
    pageNumbers: bool,
    landscape: bool,
    fontSize: real,
    output: string,
    font: string,
    mono: bool,
    proportional: bool,
    openPdfFile: bool,
    inputFiles: seq<string>)

  /** The flag defaults registered in `init`. */
  const Defaults := Settings("", "A4", false, false, false, 12.0, "output.pdf", "Courier", true, false, false, [])

  /** How a run ends: the process exit status and what the builder left behind. */
  datatype Outcome = Outcome(status: int, report: Report)

  /** The settings once `run` has resolved `mono` and `font`. */
  function Resolved(s: Settings): Settings
  {
    s.(mono := MonoInEffect(s.mono, s.proportional), font := ResolvedFont(s.font, s.mono, s.proportional))
  }

  /** The arguments `run` passes to either builder. */
  function BuilderOptions(s: Settings): Options
  {
    Options(s.title, s.paper, s.fontSize, s.pageBreaks, s.pageNumbers, s.output, s.font, s.landscape, s.openPdfFile)
  }

  /**
   * What `run` does once the font is resolved: standard input is read only
   * when no input file is named, and a failure to read it is the one error
   * that ends the process with status 1.
   */
  function Dispatched(s: Settings, stdin: Scan, results: seq<Result<string, string>>, writeError: Option<string>): Outcome
    requires |results| == |s.inputFiles|
  {
    var o := BuilderOptions(s);
    if |s.inputFiles| == 0 then
      match StdinContent(stdin)
      case Err(e) => Outcome(1, Report(None, [StdinFailed(e)]))
      case Ok(content) => Outcome(0, ContentReport([content], o, writeError))
    else Outcome(0, FileReport(s.inputFiles, results, o, writeError))
  }

  /** The specification of `run`. */
  function RunSpec(s: Settings, stdin: Scan, results: seq<Result<string, string>>, writeError: Option<string>): Outcome
    requires |results| == |s.inputFiles|
  {
    Dispatched(Resolved(s), stdin, results, writeError)
  }

  /** The file list after `run`: "stdin" once standard input was read. */
  function FilesAfterRun(inputFiles: seq<string>, stdin: Scan): seq<string>
  {
    if |inputFiles| == 0 && stdin.err.None? then ["stdin"] else inputFiles
  }

  /** The package-level flag variables, which `run` overwrites in place. */
  class Flags {
    var title: string
    var paper: string
    var pageBreaks: bool
    var pageNumbers: bool
    var landscape: bool
    var fontSize: real
    var output: string
    var font: string
    var mono: bool
    var proportional: bool
    var openPdfFile: bool
    var inputFiles: seq<string>

    /** The flags as `init` registers them, before any command-line argument is parsed. */
    constructor ()
      ensures Values() == Defaults
    {
      title, paper, pageBreaks, pageNumbers, landscape := "", "A4", false, false, false;
      fontSize, output, font, mono, proportional := 12.0, "output.pdf", "Courier", true, false;
      openPdfFile, inputFiles := false, [];
    }

    function Values(): Settings
      reads this
    {
      Settings(title, paper, pageBreaks, pageNumbers, landscape, fontSize, output, font, mono, proportional, openPdfFile, inputFiles)
    }

    /** The opening of `run`: `--proportional` switches `mono` off, then `mono` or the default name decides `font`. */
    method ResolveFont()
      modifies this
      ensures Values() == Resolved(old(Values()))
    {
      if proportional {
        mono := false;
      }
      if mono {
        font := "Courier";
      } else if font == "Courier" {
        font := "Helvetica";
      }
    }

    /**
     * The rest of `run`: read standard input when no file is named, then
     * build the document from it or from the named files.
     */
    method Dispatch(stdin: Scan, results: seq<Result<string, string>>, writeError: Option<string>) returns (outcome: Outcome)
      requires |results| == |inputFiles|
      modifies this`inputFiles
      ensures outcome == Dispatched(old(Values()), stdin, results, writeError)
      ensures inputFiles == FilesAfterRun(old(inputFiles), stdin)
    {
      var options := Options(title, paper, fontSize, pageBreaks, pageNumbers, output, font, landscape, openPdfFile);
      if |inputFiles| == 0 {
        var content, err := ReadStdin(stdin);
        if err.Some? {
          return Outcome(1, Report(None, [StdinFailed(err.value)]));
        }
        assert StdinContent(stdin) == Ok(content);
        inputFiles := ["stdin"];
        var report := CreatePDFFromContent([content], options, writeError);
        return Outcome(0, report);
      }
      var report := CreatePDF(inputFiles, results, options, writeError);
      outcome := Outcome(0, report);
    }

    /**
     * `run`. `stdin` is what the scanner over standard input delivers,
     * `results[i]` what reading `inputFiles[i]` gives, and `writeError` what
     * writing the PDF answers.
     */
    method Run(stdin: Scan, results: seq<Result<string, string>>, writeError: Option<string>) returns (outcome: Outcome)
      requires |results| == |inputFiles|
      modifies this
      ensures outcome == RunSpec(old(Values()), stdin, results, writeError)
      ensures Values() == Resolved(old(Values())).(inputFiles := FilesAfterRun(old(inputFiles), stdin))
    {
      ResolveFont();
      outcome := Dispatch(stdin, results, writeError);
    }
  }
}

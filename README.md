# pipe2pdf, modelled in Dafny

pipe2pdf is a command-line tool that turns plain text into a PDF. It takes
the text from standard input or from the files named with `--input-files`.
It lays the text out with the fpdf library in one of three standard fonts.
It can add a centred title, page numbers in the footer and a page break
after each file, and it can print a line announcing that the PDF is being
opened. The whole program is `cmd/root.go`; this project models its `run`
command and the functions `run` calls.

The model has eight modules, one per file:

- `Wrappers` holds `Option` and `Result`.
- `Fonts` models font resolution in `run` and the `addFont` switch. It
  covers how `--mono`, `--proportional` and `--font` become one family name,
  and which names `addFont` accepts.
- `Pdf` models the fpdf canvas as a class. Its state is the ordered log of
  the calls made on it (`Op`). Sizes are symbolic: `FontSize`, `TitleSize`
  for 1.5 times the font size, `LineHeight` for 0.45 times it, `DoubleLine`
  for twice the line height, and `Points(n)` for literal numbers. The
  module also measures a log: `Pages` counts the `AddPage` calls the
  program makes, `Blocks` lists the wrapped texts and `Outputs` counts the
  writes.
- `Stdin` models `readStdin` over what the line scanner delivers. A line
  list plus an optional scanner error stand for standard input.
- `Builder` models `createPDFFromContent` and `createPDF`. Each is a method
  that drives a fresh `Canvas` and prints `Message`s. Each is proved equal
  to a specification function (`ContentReport`, `FileReport`) through its
  loop invariants. The code the two builders share is factored into two
  methods: `Begin` (canvas, font, footer, first page, title) and `Finish`
  (write, then report).
- `BuilderProperties` proves what the documents of the two builders
  contain.
- `Cli` models the package-level flag variables as the class `Flags`, and
  `run` as `Flags.Run`, which updates them in place.
- `CliProperties` proves what a run does end to end.

The program's inputs from the outside world are parameters of the model:

- what standard input's scanner delivers (`Scan`);
- what reading each input file gives (`results[i]` for `inputFiles[i]`,
  either the text or the error);
- what writing the PDF answers (`writeError`).

Two behaviours of the code are worth knowing. Both are proved.

- With the flag defaults (`--mono` is true), `run` replaces any `--font`
  with Courier. An unsupported family given with `--font` alone therefore
  still reaches the write, with Courier. Only with `--proportional` (or
  `--mono=false`) does an unknown family stop the builder with "Error
  setting font" and no output file, although the flag's help text
  (cmd/root.go:70) calls `--font` the "name of font to use". This model
  follows the code (`CliProperties.MonoAlwaysWrites`,
  `CliProperties.UnsupportedFontNoOutput`).
- `createPDF` decides between a page break and spacing from a file's
  position in the whole list, not among the files that were read. With
  `--page-breaks`, an unreadable last file therefore leaves the page break
  added after the file before it, and the document ends with an empty page
  (`BuilderProperties.UnreadableLastFileLeavesEmptyPage`).

## Model

| member | source | states |
|---|---|---|
| Fonts.FontDefinition | cmd/root.go:257-269 | Succeeds exactly for "Courier", "Helvetica" and "Arial", giving "courier.json", "helvetica_1.json" and "arial_1.json" respectively; any other name gives the unsupported-font error naming it |
| Fonts.ResolvedFont | cmd/root.go:81-91 | With monospace in effect (`mono` and not `proportional`) the font is Courier. Otherwise it is never Courier: the name "Courier" becomes "Helvetica" and any other name is kept. `--proportional` never yields Courier, and a supported family stays supported |
| Pdf.Footer | cmd/root.go:140-146 | The footer draws nothing exactly when page numbering is off. When on, it draws a right-aligned cell holding the current page number, and it never adds a page or a text block |
| Pdf.Canvas.constructor | cmd/root.go:125 | `fpdf.New` yields a canvas with the given orientation, unit and paper and no calls yet |
| Pdf.Canvas.OutputFileAndClose | cmd/root.go:169 | Writing logs exactly one output call for the path and returns the write's answer unchanged, whether a file-system error or one fpdf deferred to the write |
| Stdin.Joined | cmd/root.go:110-112 | The accumulated text is empty exactly when no line was scanned; otherwise it ends with a newline |
| Stdin.JoinedSnoc | cmd/root.go:110-111 | Each scanned line appends itself and one newline to the text |
| Stdin.JoinedNewlines | cmd/root.go:107-117 | For lines without terminators, the text holds exactly one newline per scanned line |
| Stdin.SplitJoined | cmd/root.go:107-117 | Splitting the text at its newlines gives back exactly the scanned lines |
| Stdin.JoinedSplit | cmd/root.go:107-117 | Any empty or newline-terminated text is the joined form of its own lines |
| Stdin.ReadStdin | cmd/root.go:107-117 | Returns the scanner's error when there is one, and then the empty string. Otherwise it returns every scanned line followed by "\n", in order, with no error |
| Stdin.StdinContent | cmd/root.go:107-117 | An error exactly when the scanner failed, carrying its error. Otherwise the content, which is empty exactly when no line was scanned |
| Builder.Orientation | cmd/root.go:120-123 | The orientation is "L" exactly when landscape and "P" exactly when not |
| Builder.TitleOps | cmd/root.go:151-156 | The title block is empty exactly when the title is empty |
| Builder.Separator | cmd/root.go:162-166 | A new page follows a text exactly when page breaks are on and the text is not the last; otherwise double-line spacing follows |
| Builder.Completion | cmd/root.go:169-179 | A failed write prints only the write error. A successful write prints "PDF created" first, and the open line appears exactly when the write succeeded and opening was asked for, always right after "PDF created" |
| Builder.AddFont | cmd/root.go:257-269 | Succeeds exactly for the three supported families and then registers the family with its definition file. Otherwise it returns the unsupported-font error and leaves the canvas untouched |
| Builder.Begin | cmd/root.go:120-156 | Creates a fresh canvas with the orientation of `--landscape`. It fails exactly on an unsupported font, with only the canvas created. Otherwise it registers and selects the font, installs the footer, adds the first page and writes the title |
| Builder.Finish | cmd/root.go:169-179 | Writes the canvas once and prints exactly the write error, or "PDF created" and, when asked, the open line |
| Builder.CreatePDFFromContent | cmd/root.go:119-180 | Leaves the canvas and printed lines of `ContentReport`: on an unsupported font the font error alone; otherwise the preamble, a block and a separator per text, and one write at the end |
| Builder.CreatePDF | cmd/root.go:188-255 | Leaves the canvas and printed lines of `FileReport`: an unreadable file prints its read error and adds nothing to the canvas, and a readable one adds its block and the separator for its position in the whole list |
| BuilderProperties.TitleShape | cmd/root.go:151-156 | A title adds a centred title cell and a gap of one font size, and no page, block or write |
| BuilderProperties.PreambleShape | cmd/root.go:128-156 | With an accepted font, before the first text the canvas registers the font with its definition file, selects it at the font size, installs the footer with the `--page-numbers` setting and adds exactly one page; then the title follows, and there is no block or write |
| BuilderProperties.UnitShape | cmd/root.go:159-167 | One text adds exactly its block, a page exactly when it is followed by a page break, and no write |
| BuilderProperties.ContentBodyAt | cmd/root.go:159-167 | Text i is the block at position 2i of the loop's calls, followed by its separator |
| BuilderProperties.ContentBodyLength | cmd/root.go:159-167 | The loop makes exactly two calls per text |
| BuilderProperties.LastTextSpaced | cmd/root.go:162-166 | The last text is always followed by spacing, never by a new page |
| BuilderProperties.ContentBodyCounts | cmd/root.go:159-167 | The loop writes every text once, in order, and never writes the file. It calls `AddPage` never without page breaks, and with them once after each text but the last |
| BuilderProperties.SuccessesStep | cmd/root.go:228-233 | The texts read so far grow by one file's text, or by nothing for an unreadable file |
| BuilderProperties.FileBodyCounts | cmd/root.go:228-242 | The file loop writes exactly the readable files' texts, in file order, and never writes the file. With page breaks it calls `AddPage` once per readable file that is not last in the list; without them, never |
| BuilderProperties.SuccessesAllRead | cmd/root.go:228-235 | When every read succeeds, the texts read are the file contents, one per file, in order |
| BuilderProperties.FileBodyAllRead | cmd/root.go:228-242 | When every read succeeds, the file loop makes the same calls as the content loop on those texts |
| BuilderProperties.ReadErrorsAllRead | cmd/root.go:230-233 | No read error is printed when every read succeeds |
| BuilderProperties.ReadErrorsOnlyFailures | cmd/root.go:230-233 | The file loop prints nothing but read errors |
| BuilderProperties.UnsupportedFontStops | cmd/root.go:128-132 | On an unsupported font neither builder adds a page, a drawing or a write; the font error is the only line printed |
| BuilderProperties.CanvasCreated | cmd/root.go:120-125 | Both builders create the canvas in millimetres with the chosen paper, landscape exactly when `--landscape` is set |
| BuilderProperties.ContentDocument | cmd/root.go:119-180 | With an accepted font, the content document starts with one `AddPage` after the setup and holds every text as a block, in order. The builder calls `AddPage` once plus once per page break between texts, and the document ends with its single write |
| BuilderProperties.FileDocument | cmd/root.go:188-255 | With an accepted font, the file document holds exactly the readable files' texts, in order. The builder calls `AddPage` once plus, with page breaks, once per readable file before the last position of the list, and the document ends with its single write |
| BuilderProperties.AllReadSameAsContent | cmd/root.go:228-242 | When every file is read, `createPDF` leaves the same canvas and printed lines as `createPDFFromContent` on the file contents |
| BuilderProperties.CreatedOnlyAfterWrite | cmd/root.go:169-179 | In both builders "PDF created" is printed exactly when the font was accepted and the write succeeded. The open line is printed exactly when, in addition, opening was asked for |
| BuilderProperties.FooterFollowsPageNumbers | cmd/root.go:140-146 | With an accepted font, both builders install the footer with the `--page-numbers` setting, so a page's footer draws its number exactly when that flag is set |
| BuilderProperties.SupportedFontRegistered | cmd/root.go:128-133 | With an accepted font, the first call on the canvas registers it with its definition file, and no font error is printed |
| BuilderProperties.FileBodyEndsWithBreak | cmd/root.go:228-242 | With page breaks, a readable file followed by an unreadable last file makes a page break the loop's last call |
| BuilderProperties.UnreadableLastFileLeavesEmptyPage | cmd/root.go:237-244 | With page breaks and an unreadable last file, the file document ends with a page break just before the write. The content document on the same texts ends with spacing |
| Cli.Flags.constructor | cmd/root.go:62-74 | The flags start at their registered defaults |
| Cli.Flags.ResolveFont | cmd/root.go:81-91 | `--proportional` switches `mono` off, and `font` becomes the resolved family; no other flag changes |
| Cli.Flags.Dispatch | cmd/root.go:93-104 | Without input files, standard input is read: a read error ends with status 1 and no canvas, otherwise its text is built as one content and the file list becomes "stdin". With files, they are built by `createPDF` |
| Cli.Flags.Run | cmd/root.go:80-105 | `run` resolves the font, then dispatches as above; the flags end with the resolved font and the updated file list |
| CliProperties.RunStatus | cmd/root.go:93-104 | The status is 1 exactly when no file is named and standard input fails, and then only the stdin error is printed and no canvas exists. Font and write errors leave the status at 0 |
| CliProperties.MonoAlwaysWrites | cmd/root.go:86-91 | With monospace in effect, whatever `--font` says, the document registers Courier, ends with its single write, and no font error is printed |
| CliProperties.UnsupportedFontNoOutput | cmd/root.go:81-91 | With monospace not in effect (`--proportional` or `--mono=false`) and an unsupported family, the font error is the only effect: no drawing, no write, no "PDF created" |
| CliProperties.StdinDocument | cmd/root.go:94-101 | With an accepted font, standard input becomes one block, its lines each followed by a newline, with a single `AddPage` whatever `--page-breaks` says, written once |
| CliProperties.EmptyStdinDocument | cmd/root.go:94-101 | With an accepted font, empty standard input still gives a document with one empty block and a single `AddPage` |
| CliProperties.TwoFilesWithPageBreaks | cmd/root.go:102-104 | Two readable files with `--page-breaks` and other defaults (so the font is Courier) give two blocks in file order and two `AddPage` calls. The file is written once and "PDF created: output.pdf" is the only line printed |

## Left out

- fpdf internals (line wrapping, font metrics, cursor placement, PDF serialisation) are not modelled. The canvas is the log of the calls made on it.
- Pages that fpdf starts by itself when a block overflows the printable area (automatic page breaking is left on by `fpdf.New`) are not modelled. `Pages` counts the builders' own `AddPage` calls only, so "pages" in the rows above means those calls.
- fpdf runs the footer callback once per page. The model logs that the callback was installed (`SetFooter`) and states what one run draws (`Pdf.Footer`); it does not replay the callback per page.
- The header callback installed at lines 136-138 and 205-207 is empty, so it is left out.
- Floating-point sizes are symbolic (`Size`): the font size, 1.5 times it, 0.45 times it and twice that. No arithmetic on them is modelled, so `--font-size` reaches the model only as a value carried in the options.
- Cobra's flag parsing, `Execute` and its exit on a parse error (lines 55-60) are not modelled. Parsed flag values are the starting state of `Flags`.
- Paper names are passed to the canvas as given. fpdf's handling of unknown paper sizes is not modelled.
- Reading files, reading standard input and writing the PDF are inputs of the model, not I/O. A file read is its text or its error, and the write outcome is `None` or the error.
- `writeError` also stands for errors fpdf records earlier and reports only at the write, such as a font definition file that `AddFont` could not load (lines 260-264). Which calls can cause such an error is not modelled.
- The scanner's line-length limit is not modelled separately. A line longer than the limit shows up as the scanner error it causes.
- Standard output and standard error are not told apart. The message kind records which line was printed, and the stdin error is the one line that goes to standard error.
- The order in which console lines and canvas calls interleave is not recorded. Each channel keeps its own order.
- `os.Exit(1)` on a stdin error is modelled as an outcome with status 1 and no canvas.
- `openPDF` (lines 182-186) only prints a line, and the model records that line (`Opening`).
- The setting of `inputFiles` to `["stdin"]` is kept in the flag state, but nothing later reads it.

# secure-code-review-tool, modelled in Dafny

The tool is a small Flask application (`app.py`). A user uploads a source file
and picks an analysis mode: `api` or `bandit`.

- `api` sends the code to Cohere's completion endpoint inside a fixed prompt.
- `bandit` writes the code to `temp_code.py`, runs Bandit on it and formats
  Bandit's JSON findings as plain-text blocks.

Both modes turn the resulting text into a PDF report. The report is one
paragraph per non-blank line, under a title and an "Analysis Results:"
heading. Both then render an HTML page.

This project models the parts of `app.py` that are the program's own logic
rather than calls into Flask, Cohere, Bandit or ReportLab:

- `wrappers.dfy` (`Wrappers`): the Option and Result values that stand for
  `None` and for raised errors.
- `text.dfy` (`PyText`): the pieces of Python's `str` the handler relies on.
  These are `split('\n')` (k line breaks give k + 1 pieces, and `""` gives
  `[""]`), `sep.join`, `strip()` (with the `str.isspace` character set) and
  `str(int)`.
- `bandit.dfy` (`Bandit`): `run_bandit`. The subprocess and `json.loads`
  become a `ToolRun`: whether the temporary file exists, how the launch of
  `bandit` went (started, executable not found, or another OSError), the
  error stream, and the decoded standard output, in which any of the five
  keys of a finding may be absent. `RunBandit` is the formatting loop as
  written. It is proved equal to the specification function `BanditResult`,
  and the properties of the formatted text are proved about that function.
- `report.dfy` (`Report`): `generate_pdf_report`. It covers the line filter
  and the element list handed to ReportLab.
- `upload.dfy` (`Upload`): `upload_file`. Each collaborator's behaviour is
  an input (`Backends`):
  - Cohere's answer;
  - whether the temporary file can be written;
  - what `run_bandit` observes;
  - whether `os.remove` succeeds;
  - whether the report gets built (ReportLab's `Paragraph` constructors and
    `doc.build` may each raise).

  The model covers which response each combination produces.

Three consequences of the code's structure are worth stating up front:

- **`run_bandit` never raises.** Every failure inside it comes back as a
  string (app.py:114-122). In `bandit` mode a Bandit failure is therefore
  shown on `banditReport.html` as if it were the analysis, and is also put
  in the PDF. See `Upload.ToolFailureRenderedAsAnalysis`.
- **Report-build failures are caught.** `generate_pdf_report` is called
  inside both `try` blocks (app.py:48, app.py:67), so a failure while
  building the PDF gives the mode's error page. See `Upload.ApiOutcome` and
  `Upload.BanditOutcome`.
- **A missing `bandit` executable is reported as a missing temporary file.**
  `subprocess.Popen` (app.py:87) raises FileNotFoundError when the
  executable is not found, and the handler at app.py:114-116 answers with
  "Error: The temporary file could not be found. …" although the file is
  there. `os.remove` then succeeds and that message is rendered as the
  analysis. See `Upload.MissingExecutableShownAsMissingFile`.

## Model

| member | source | states |
|---|---|---|
| PyText.SplitCount | app.py:139 | `split('\n')` yields exactly one more piece than the text has line breaks |
| PyText.SplitPiecesHaveNoNewline | app.py:139 | no piece of `split('\n')` contains a line break |
| PyText.SplitWithoutNewline | app.py:139 | a text without line breaks splits into itself alone (so `""` gives `[""]`) |
| PyText.JoinSplit | app.py:139 | joining the pieces of `split('\n')` with `'\n'` gives the text back |
| PyText.SplitJoin | app.py:101-108 | lines without line breaks, joined with `'\n'`, split back into the same lines |
| PyText.SplitConcat | app.py:112 | splitting `a + '\n' + b` gives the pieces of `a` followed by the pieces of `b` |
| PyText.StripEmptyIffBlank | app.py:139 | `line.strip()` is empty exactly when every character of the line is whitespace |
| PyText.IntToStringRoundTrip | app.py:106 | `str(n)` of an integer reads back as `n` |
| Bandit.Lookups | app.py:100-106 | reading the entries succeeds with one finding per entry, in order, or fails with the key missing from the first incomplete entry |
| Bandit.LookupsFirstFailure | app.py:100-106 | the first entry lacking a key decides the failure, whatever follows it |
| Bandit.RunBandit | app.py:80-122 | the loop returns the specified string on every path (missing file, failed launch, error stream, bad JSON, missing key, formatted findings) and never raises |
| Bandit.FixedOutcomes | app.py:82-122 | the exact strings for a missing file or a missing executable (both FileNotFoundError), another launch error (`"Unexpected error occurred: " + str(e)`), a non-empty error stream (`"Unexpected error occurred: Bandit error: " + stderr`) and unparseable output, and "No issues found." for an absent or empty `results` |
| Bandit.MissingKeyReported | app.py:101-122 | an entry without one of the five keys gives `"Unexpected error occurred: '<key>'"`, naming the first missing key of the first incomplete entry |
| Bandit.CompleteResultsRendered | app.py:96-112 | when every entry is complete, the result is the rendering of those findings, one block each, in order |
| Bandit.AnalysisOnlyWhenCompleted | app.py:80-122 | the result reads as an analysis ("No issues found." or text opening with "File: ") exactly when Bandit was started on the file, wrote nothing to its error stream, and every entry was complete; a failed launch or a non-empty error stream is never taken for success |
| Bandit.BlockLayout | app.py:101-108 | when no field holds a line break, a block is six lines: "File: ", "Issue: ", "Severity: ", "Confidence: " and "Line Number: " each followed by its field, then the dashed divider |
| Bandit.RenderLayout | app.py:112 | when no field holds a line break, the text for N findings splits into the blocks' lines, with one empty line between neighbouring blocks |
| Bandit.RenderedLinesShape | app.py:100-112 | the line layout of N findings (the lines of the text when no field holds a line break) has 7N - 1 lines; the k-th group of six is the k-th finding's block, and the N - 1 lines between groups are empty |
| Bandit.RenderStartsWithFileLabel | app.py:101-112 | the text for one or more findings opens with "File: " |
| Bandit.ParseBlockLines | app.py:101-108 | a block's six lines read back as the finding, line number included |
| Bandit.RenderRoundTrip | app.py:96-112 | the findings, their number and their order can be read back from the formatted text, and no findings read back from "No issues found." |
| Report.KeptLines | app.py:139 | the comprehension keeps no more lines than it was given, and only lines that are not all whitespace |
| Report.KeptIndices | app.py:139 | the positions of the kept lines are increasing, each holds a non-blank line, and every non-blank line's position is among them |
| Report.KeptLinesExactly | app.py:139 | the kept lines are exactly the non-blank lines, unmodified and in input order |
| Report.KeptIffStripped | app.py:139 | a line is kept exactly when `line.strip()` is non-empty |
| Report.KeptLinesAppend | app.py:139 | filtering a concatenation filters each part |
| Report.GeneratePdfReport | app.py:125-144 | the appends and the extend build the specified element list, and the path is "analysis_report.pdf" |
| Report.ReportLayout | app.py:133-141 | the element list has 4 + k + 1 entries for k kept lines: the title, a spacer, the heading, a spacer, one BodyText paragraph per kept line in order, and a final spacer |
| Report.SingleLineText | app.py:139 | a one-line text gives one paragraph, or none when it is blank |
| Upload.UploadFile | app.py:25-75 | a missing file part gives the 400 "No file uploaded" before the mode is examined; a present file with a mode other than "api" or "bandit" (or none) gives "Invalid analysis type selected"; the status is 400 exactly in those two cases |
| Upload.OnlyTheChosenBackendMatters | app.py:33-75 | an unknown or absent mode gives the same reply whatever the backends do; the `api` reply depends only on the completion call and the build; the `bandit` reply never depends on the completion call |
| Upload.PromptKeepsCode | app.py:36 | the uploaded code sits unchanged between the prompt's fixed head and tail |
| Upload.ApiRequestSettings | app.py:36-43 | the request uses model "command-xlarge-nightly", 300 tokens, temperature 0.5, and a prompt holding the code |
| Upload.ApiOutcome | app.py:33-55 | report.html with the generated text when the completion and the build succeed, otherwise the page "API request failed." |
| Upload.BanditOutcome | app.py:57-72 | banditReport.html with `run_bandit`'s string, whatever Bandit did, when the write, the remove and the build succeed; otherwise the page "Bandit analysis failed." |
| Upload.ToolFailureRenderedAsAnalysis | app.py:57-68 | a started Bandit run with a non-empty error stream is rendered on banditReport.html as `"Unexpected error occurred: Bandit error: " + stderr`, text that does not read as an analysis |
| Upload.MissingExecutableShownAsMissingFile | app.py:57-68 | with the temporary file written but no `bandit` executable, banditReport.html shows "Error: The temporary file could not be found. …" as the analysis, text that does not read as an analysis |
| Upload.BanditReportParagraphs | app.py:96-141 | the PDF of a Bandit report has the blocks' lines as its paragraphs, in order and without the empty separators (6 per finding), or the single line "No issues found." |

## Left out

- Cohere's client (app.py:17-18, 38-45) is a remote call. Its answer is an input of `Backends`. `None` stands for any exception it raises, including an empty `generations` list.
- The subprocess that runs Bandit (app.py:86-88), the temporary-file write (app.py:59-61) and `os.remove` (app.py:64) are process and file-system I/O. Only their outcomes are modelled, as inputs.
- ReportLab's page layout and `doc.build` (app.py:130-131, 143) are a foreign library. Only the element list handed to it is modelled, plus whether the report gets built.
- Report.GeneratePdfReport: has no failure path. ReportLab's `Paragraph` constructor parses its text as markup and can raise on malformed markup (app.py:134, 136, 139) before `doc.build` runs. Those failures are folded into `Backends.build`, a function of the element list, whose exception reaches the same handler.
- Flask routing, `render_template`, `jsonify`, `send_file`, `load_dotenv`, the upload form route and `download_report` (app.py:6-22, 146-155) are web-framework plumbing. A rendered page is modelled as its template name and arguments.
- UTF-8 decoding of the upload and of Bandit's output streams (app.py:30, 92, 95) is a library codec. The decoded strings are inputs, and a decoding failure is not modelled.
- JSON values of unexpected types are not modelled: a top-level value that is not an object, a `results` that is not a list, or field values that are not strings (with an integer `line_number`). Their `str()` formatting is Python's, not the program's.
- Logging through `print` (app.py:54, 71, 115, 118, 121) has no effect on any result.
- Fixed shared file names and races between concurrent requests are not modelled. The code has no synchronisation. `ToolRun.fileExists` is taken as observed, and `Backends.removeSucceeds` alone decides whether `os.remove` raises.
- Exceptions from `communicate()` after a successful launch (app.py:88) are not modelled.
- Bandit.RenderRoundTrip: stated only for findings whose text fields hold no line break. A field containing `'\n'` makes the formatted text ambiguous, and the source promises nothing about reading it back.
- Upload.BanditReportParagraphs: stated only for findings whose text fields hold no line break, for the same reason.
- Bandit.BlockLayout: stated only for findings whose text fields hold no line break. A field containing `'\n'` adds lines to the block.
- Bandit.RenderLayout: stated only for findings whose text fields hold no line break, for the same reason.
- Bandit.RenderedLinesShape: describes the line layout `RenderedLines`, which is the text's split only under the same condition (through `Bandit.RenderLayout`).

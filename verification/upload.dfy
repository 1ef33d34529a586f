/**
 * `upload_file`: the POST /upload handler. Cohere's client, the temporary
 * file, Bandit and ReportLab's `doc.build` are replaced by what they were
 * observed to do (Backends); what is modelled is the branch structure, the
 * request sent to Cohere, and which page or error each outcome produces.
 */
module Upload {
  import opened Wrappers
  import opened PyText
  import opened Bandit
  import opened Report

  /** The arguments of `co.generate`. */
  datatype CompletionRequest = CompletionRequest(model: string, prompt: string, maxTokens: int, temperature: real)

  /**
   * What the handler's collaborators do on this request:
   * `generate` gives `response.generations[0].text`, or None when the call
   * (or the indexing) raises; `writeSucceeds` says whether the temporary file
   * could be written; `tool` is what `run_bandit` observes; `removeSucceeds`
   * says whether `os.remove` succeeds; `build` says whether the report for an
   * element list gets built: both ReportLab's `Paragraph` constructors, which
   * parse their text as markup, and `doc.build` may raise, and either way the
   * exception reaches the same handler.
   */
  datatype Backends = Backends(
    generate: CompletionRequest -> Option<string>,
    writeSucceeds: bool,
    tool: ToolRun,
    removeSucceeds: bool,
    build: seq<Flowable> -> bool)

  /** The handler's replies: two 400 responses, and the rendered templates. */
  datatype Response =
    | JsonError(error: string)
    | PlainText(body: string)
    | Page(template: string, analysis: string, pdfPath: string)
    | ErrorPage(message: string)

  /** The HTTP status of a reply. */
  function Status(r: Response): int {
    match r
    case JsonError(_) => 400
    case PlainText(_) => 400
    case _ => 200
  }

  const PromptHead := "Analyze the following code for security vulnerabilities:\n\n"
  const PromptTail := "\n\nProvide a detailed explanation of potential vulnerabilities and risks."
  const ApiTitle := "API-Based Code Analysis Report"
  const BanditTitle := "Bandit Analysis Report"
  const ApiFailed := "API request failed."
  const BanditFailed := "Bandit analysis failed."

  /** The prompt: the uploaded code between a fixed instruction and a fixed request. */
  function Prompt(code: string): (p: string)
    ensures |p| == |PromptHead| + |code| + |PromptTail|
    ensures HasPrefix(p, PromptHead)
  {
    PromptHead + code + PromptTail
  }

  /** The code part of a prompt: what lies between the fixed head and tail. */
  function CodeOfPrompt(p: string): string
    requires |p| >= |PromptHead| + |PromptTail|
  {
    p[|PromptHead|..|p| - |PromptTail|]
  }

  /** The request sent to Cohere for the uploaded code. */
  function ApiRequest(code: string): CompletionRequest {
    CompletionRequest("command-xlarge-nightly", Prompt(code), 300, 0.5)
  }

  /** The `api` branch: generate, build the report, render report.html; any exception gives the error page. */
  function ApiAnalysis(code: string, env: Backends): Response {
    match env.generate(ApiRequest(code))
    case None => ErrorPage(ApiFailed)
    case Some(analysis) =>
      if env.build(ReportElements(analysis, ApiTitle)) then Page("report.html", analysis, ReportPath)
      else ErrorPage(ApiFailed)
  }

  /**
   * The `bandit` branch: write the temporary file, run Bandit, remove the
   * file, build the report, render banditReport.html. `run_bandit` never
   * raises, so only the write, the remove and the build can reach the handler.
   */
  function BanditAnalysis(code: string, env: Backends): Response {
    if !env.writeSucceeds then ErrorPage(BanditFailed)
    else
      var analysis := BanditResult(env.tool);
      if !env.removeSucceeds then ErrorPage(BanditFailed)
      else if !env.build(ReportElements(analysis, BanditTitle)) then ErrorPage(BanditFailed)
      else Page("banditReport.html", analysis, ReportPath)
  }

  /**
   * The handler: no `file` part gives 400 before anything else is looked at;
   * the mode is matched exactly against "api", then "bandit"; any other value,
   * or none, gives 400.
   */
  function UploadFile(filePresent: bool, analysisType: Option<string>, code: string, env: Backends): (r: Response)
    ensures !filePresent ==> r == JsonError("No file uploaded")
    ensures filePresent && analysisType != Some("api") && analysisType != Some("bandit") ==>
      r == PlainText("Invalid analysis type selected")
    ensures Status(r) == 400 <==> !filePresent || (analysisType != Some("api") && analysisType != Some("bandit"))
  {
    if !filePresent then JsonError("No file uploaded")
    else if analysisType == Some("api") then ApiAnalysis(code, env)
    else if analysisType == Some("bandit") then BanditAnalysis(code, env)
    else PlainText("Invalid analysis type selected")
  }

  /** The code can be read back from the prompt unchanged. */
  lemma PromptKeepsCode(code: string)
    ensures CodeOfPrompt(Prompt(code)) == code
  {
    var p := Prompt(code);
    assert p[|PromptHead|..|p| - |PromptTail|] == code;
  }

  /** The request carries the fixed model and sampling settings and a prompt holding the code. */
  lemma ApiRequestSettings(code: string)
    ensures ApiRequest(code).model == "command-xlarge-nightly"
    ensures ApiRequest(code).maxTokens == 300 && ApiRequest(code).temperature == 0.5
    ensures CodeOfPrompt(ApiRequest(code).prompt) == code
  {
    PromptKeepsCode(code);
  }

  /**
   * An unknown mode is rejected whatever the backends would have done, the
   * `api` branch consults only the completion call and the report build, and
   * the `bandit` branch never consults the completion call.
   */
  lemma OnlyTheChosenBackendMatters(filePresent: bool, analysisType: Option<string>, code: string, env: Backends, other: Backends)
    ensures analysisType != Some("api") && analysisType != Some("bandit") ==>
      UploadFile(filePresent, analysisType, code, env) == UploadFile(filePresent, analysisType, code, other)
    ensures analysisType == Some("api") && env.generate == other.generate && env.build == other.build ==>
      UploadFile(filePresent, analysisType, code, env) == UploadFile(filePresent, analysisType, code, other)
    ensures analysisType == Some("bandit") ==>
      UploadFile(filePresent, analysisType, code, env) ==
      UploadFile(filePresent, analysisType, code, env.(generate := other.generate))
  {
  }

  /** The `api` branch renders report.html exactly when the completion and the build succeed. */
  lemma ApiOutcome(code: string, env: Backends)
    ensures var r := UploadFile(true, Some("api"), code, env);
      var reply := env.generate(ApiRequest(code));
      (reply.Some? && env.build(ReportElements(reply.value, "API-Based Code Analysis Report")) ==>
        r == Page("report.html", reply.value, "analysis_report.pdf")) &&
      (reply.None? || !env.build(ReportElements(reply.value, "API-Based Code Analysis Report")) ==>
        r == ErrorPage("API request failed."))
  {
  }

  /**
   * The `bandit` branch renders banditReport.html with whatever `run_bandit`
   * returned exactly when the file operations and the build succeed, and the
   * error page otherwise.
   */
  lemma BanditOutcome(code: string, env: Backends)
    ensures var r := UploadFile(true, Some("bandit"), code, env);
      var ok := env.writeSucceeds && env.removeSucceeds &&
        env.build(ReportElements(BanditResult(env.tool), "Bandit Analysis Report"));
      (ok ==> r == Page("banditReport.html", BanditResult(env.tool), "analysis_report.pdf")) &&
      (!ok ==> r == ErrorPage("Bandit analysis failed."))
  {
  }

  /**
   * Bandit failing is not an exception here: its error text is rendered as
   * the analysis on banditReport.html, and it never reads as an analysis.
   */
  lemma ToolFailureRenderedAsAnalysis(code: string, env: Backends)
    requires env.writeSucceeds && env.removeSucceeds
    requires env.build(ReportElements(BanditResult(env.tool), BanditTitle))
    requires Ran(env.tool) && env.tool.stderr != ""
    ensures UploadFile(true, Some("bandit"), code, env) ==
      Page("banditReport.html", "Unexpected error occurred: Bandit error: " + env.tool.stderr, ReportPath)
    ensures !ReadsAsAnalysis(UploadFile(true, Some("bandit"), code, env).analysis)
  {
    FixedOutcomes(env.tool);
    AnalysisOnlyWhenCompleted(env.tool);
  }

  /**
   * A missing `bandit` executable makes `Popen` raise FileNotFoundError, which
   * `run_bandit` reports as a missing temporary file although the file is
   * there; that message is then rendered on banditReport.html as the analysis.
   */
  lemma MissingExecutableShownAsMissingFile(code: string, env: Backends)
    requires env.writeSucceeds && env.removeSucceeds
    requires env.tool.fileExists && env.tool.launch == ExecutableMissing
    requires env.build(ReportElements(BanditResult(env.tool), BanditTitle))
    ensures UploadFile(true, Some("bandit"), code, env) == Page("banditReport.html",
      "Error: " + "The temporary file could not be found. Please check the upload and try again.", ReportPath)
    ensures !ReadsAsAnalysis(UploadFile(true, Some("bandit"), code, env).analysis)
  {
    FixedOutcomes(env.tool);
    AnalysisOnlyWhenCompleted(env.tool);
  }

  // ---------------------------------------------------------------------
  // What the Bandit report shows

  /** The lines of the groups, one group after another. */
  function Concat(groups: seq<seq<string>>): seq<string> {
    if groups == [] then [] else Concat(groups[..|groups| - 1]) + groups[|groups| - 1]
  }

  lemma {:induction false} ConcatSixes(groups: seq<seq<string>>)
    requires Sixes(groups)
    ensures |Concat(groups)| == 6 * |groups|
  {
    if groups != [] {
      ConcatSixes(groups[..|groups| - 1]);
    }
  }

  lemma {:induction false} KeptLinesAllKept(lines: seq<string>)
    requires forall k :: 0 <= k < |lines| ==> Kept(lines[k])
    ensures KeptLines(lines) == lines
  {
    if lines != [] {
      KeptLinesAllKept(lines[..|lines| - 1]);
    }
  }

  /** Dropping the empty lines between groups of non-blank lines leaves the groups' lines. */
  lemma {:induction false} KeptJoinGroups(groups: seq<seq<string>>)
    requires |groups| >= 1
    requires forall i, k :: 0 <= i < |groups| && 0 <= k < |groups[i]| ==> Kept(groups[i][k])
    ensures KeptLines(JoinGroups(groups)) == Concat(groups)
  {
    var n := |groups|;
    KeptLinesAllKept(groups[n - 1]);
    if n == 1 {
      assert groups[..0] == [];
    } else {
      var init := groups[..n - 1];
      KeptJoinGroups(init);
      KeptLinesAppend(JoinGroups(init) + [""], groups[n - 1]);
      KeptLinesAppend(JoinGroups(init), [""]);
      assert KeptLines([""]) == [];
    }
  }

  lemma LabelledIsKept(tag: string, value: string)
    requires |tag| >= 1 && !IsWhitespace(tag[0])
    ensures Kept(tag + value)
  {
    assert (tag + value)[0] == tag[0];
  }

  lemma BlockLinesAreKept(f: Finding)
    ensures forall k :: 0 <= k < 6 ==> Kept(BlockLines(f)[k])
  {
    assert FileLabel[0] == 'F' && IssueLabel[0] == 'I' && SeverityLabel[0] == 'S';
    assert ConfidenceLabel[0] == 'C' && LineLabel[0] == 'L' && Divider[0] == '-';
    LabelledIsKept(FileLabel, f.filename);
    LabelledIsKept(IssueLabel, f.issueText);
    LabelledIsKept(SeverityLabel, f.issueSeverity);
    LabelledIsKept(ConfidenceLabel, f.issueConfidence);
    LabelledIsKept(LineLabel, IntToString(f.lineNumber));
    LabelledIsKept(Divider, "");
    assert Divider + "" == Divider;
  }

  /**
   * The PDF paragraphs of a Bandit report for complete findings: every line
   * of every block, in order, without the empty separator lines (six per
   * finding), or the single "No issues found." line when there are none.
   */
  lemma BanditReportParagraphs(fs: seq<Finding>)
    requires forall i :: 0 <= i < |fs| ==> SingleLine(fs[i])
    ensures |fs| == 0 ==> KeptLines(Split(Render(fs))) == ["No issues found."]
    ensures |fs| > 0 ==> KeptLines(Split(Render(fs))) == Concat(BlockGroups(fs))
    ensures |KeptLines(Split(Render(fs)))| == if |fs| == 0 then 1 else 6 * |fs|
  {
    if |fs| == 0 {
      SplitWithoutNewline(NoIssues);
      assert NoIssues[0] == 'N';
      LabelledIsKept(NoIssues, "");
      assert NoIssues + "" == NoIssues;
      KeptLinesAllKept([NoIssues]);
    } else {
      RenderLayout(fs);
      var groups := BlockGroups(fs);
      forall i, k | 0 <= i < |groups| && 0 <= k < |groups[i]| ensures Kept(groups[i][k]) {
        BlockLinesAreKept(fs[i]);
      }
      KeptJoinGroups(groups);
      ConcatSixes(groups);
    }
  }
}

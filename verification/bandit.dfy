/**
 * `run_bandit`: what the handler gets back from one Bandit invocation. The
 * subprocess and the JSON decoder are replaced by what they were observed to
 * produce (a ToolRun); every path ends in a string and none raises.
 */
module Bandit {
  import opened Wrappers
  import opened PyText

  /** One entry of Bandit's `results` array with the five fields the formatter reads. */
  datatype Finding = Finding(
    filename: string,
    issueText: string,
    issueSeverity: string,
    issueConfidence: string,
    lineNumber: int)

  /** One decoded entry of `results`, in which any of the five keys may be absent. */
  datatype RawFinding = RawFinding(
    filename: Option<string>,
    issueText: Option<string>,
    issueSeverity: Option<string>,
    issueConfidence: Option<string>,
    lineNumber: Option<int>)

  /** What `json.loads` made of standard output: not JSON, or an object whose `results` key may be absent. */
  datatype Decoded = NotJson | Object(results: Option<seq<RawFinding>>)

  /**
   * What `subprocess.Popen` did: started Bandit, raised FileNotFoundError
   * because no `bandit` executable was found, or raised another OSError
   * (a PermissionError, say) whose `str()` is `error`.
   */
  datatype Launch = Launched | ExecutableMissing | LaunchError(error: string)

  /**
   * What one invocation observed: whether the temporary file existed, how the
   * launch went, the error stream and the decoded standard output.
   */
  datatype ToolRun = ToolRun(fileExists: bool, launch: Launch, stderr: string, stdout: Decoded)

  /** Bandit was started on a file that was there; only then do its streams matter. */
  predicate Ran(run: ToolRun) {
    run.fileExists && run.launch == Launched
  }

  const NoIssues := "No issues found."
  const ErrorPrefix := "Error: "
  const MissingFileMessage := ErrorPrefix + "The temporary file could not be found. Please check the upload and try again."
  const ParseFailedMessage := ErrorPrefix + "Failed to parse Bandit JSON output."
  const UnexpectedPrefix := "Unexpected error occurred: "
  const Divider := "---------------------------------------"
  const BlockSeparator := "\n\n"

  const FileLabel := "File: "
  const IssueLabel := "Issue: "
  const SeverityLabel := "Severity: "
  const ConfidenceLabel := "Confidence: "
  const LineLabel := "Line Number: "

  /** `str(e)` of the exception raised when Bandit wrote to its error stream. */
  function ToolErrorText(stderr: string): string {
    "Bandit error: " + stderr
  }

  /** `str(KeyError(key))`: the key in single quotes. */
  function KeyErrorText(key: string): string {
    "'" + key + "'"
  }

  /** `analysis_results.get('results', [])` */
  function ResultsOrEmpty(results: Option<seq<RawFinding>>): seq<RawFinding> {
    if results.Some? then results.value else []
  }

  /**
   * Reading the five keys of one entry, in the order the block names them;
   * the first absent key is the one the KeyError reports.
   */
  function Lookup(r: RawFinding): Result<Finding, string> {
    if r.filename.None? then Failure("filename")
    else if r.issueText.None? then Failure("issue_text")
    else if r.issueSeverity.None? then Failure("issue_severity")
    else if r.issueConfidence.None? then Failure("issue_confidence")
    else if r.lineNumber.None? then Failure("line_number")
    else Success(Finding(r.filename.value, r.issueText.value, r.issueSeverity.value,
                         r.issueConfidence.value, r.lineNumber.value))
  }

  /**
   * Reading every entry in order: all findings when every entry has its keys,
   * otherwise the key missing from the first incomplete entry.
   */
  function Lookups(rs: seq<RawFinding>): (r: Result<seq<Finding>, string>)
    ensures r.Success? ==>
      |r.value| == |rs| && forall i :: 0 <= i < |rs| ==> Lookup(rs[i]) == Success(r.value[i])
    ensures r.Failure? ==>
      exists i :: 0 <= i < |rs| && Lookup(rs[i]) == Failure(r.error) &&
        forall j :: 0 <= j < i ==> Lookup(rs[j]).Success?
  {
    if rs == [] then Success([])
    else
      match Lookups(rs[..|rs| - 1])
      case Failure(key) => Failure(key)
      case Success(fs) =>
        match Lookup(rs[|rs| - 1])
        case Failure(key) => Failure(key)
        case Success(f) => Success(fs + [f])
  }

  /** The first incomplete entry decides the failure of the whole list. */
  lemma LookupsFirstFailure(rs: seq<RawFinding>, i: nat)
    requires i < |rs| && Lookup(rs[i]).Failure?
    requires forall j :: 0 <= j < i ==> Lookup(rs[j]).Success?
    ensures Lookups(rs) == Failure(Lookup(rs[i]).error)
  {
    var r := Lookups(rs);
    if r.Failure? {
      var i' :| 0 <= i' < |rs| && Lookup(rs[i']) == Failure(r.error) &&
        forall j :: 0 <= j < i' ==> Lookup(rs[j]).Success?;
      assert i' == i;
    }
  }

  /**
   * The five-line block for one finding: "File: ", "Issue: ", "Severity: ",
   * "Confidence: " and "Line Number: " each followed by its field, then the
   * divider, one per line.
   */
  function Block(f: Finding): string {
    Join("\n", BlockLines(f))
  }

  /** The six lines of a block: five labelled fields, then the divider. */
  function BlockLines(f: Finding): seq<string> {
    [FileLabel + f.filename, IssueLabel + f.issueText, SeverityLabel + f.issueSeverity,
     ConfidenceLabel + f.issueConfidence, LineLabel + IntToString(f.lineNumber), Divider]
  }

  /** The blocks of the findings, one per finding, in order. */
  function Blocks(fs: seq<Finding>): (bs: seq<string>)
    ensures |bs| == |fs| && forall i :: 0 <= i < |fs| ==> bs[i] == Block(fs[i])
  {
    seq(|fs|, i requires 0 <= i < |fs| => Block(fs[i]))
  }

  lemma BlocksSnoc(fs: seq<Finding>, f: Finding)
    ensures Blocks(fs + [f]) == Blocks(fs) + [Block(f)]
  {
    assert forall i :: 0 <= i < |fs| ==> (fs + [f])[i] == fs[i];
  }

  /** The text returned for a list of complete findings. */
  function Render(fs: seq<Finding>): string {
    if |fs| > 0 then Join(BlockSeparator, Blocks(fs)) else NoIssues
  }

  /** The string `run_bandit` returns for what the tool was observed to do. */
  function BanditResult(run: ToolRun): string {
    if !run.fileExists then MissingFileMessage
    else if run.launch.ExecutableMissing? then MissingFileMessage
    else if run.launch.LaunchError? then UnexpectedPrefix + run.launch.error
    else if run.stderr != "" then UnexpectedPrefix + ToolErrorText(run.stderr)
    else match run.stdout
      case NotJson => ParseFailedMessage
      case Object(results) =>
        match Lookups(ResultsOrEmpty(results))
        case Failure(key) => UnexpectedPrefix + KeyErrorText(key)
        case Success(fs) => Render(fs)
  }

  /**
   * `run_bandit` as written: the existence check, the launch, the error-stream
   * check, the decode, then the loop that appends one block per finding.
   */
  method RunBandit(run: ToolRun) returns (text: string)
    ensures text == BanditResult(run)
  {
    if !run.fileExists {
      return MissingFileMessage;
    }
    if run.launch.ExecutableMissing? {
      return MissingFileMessage;
    }
    if run.launch.LaunchError? {
      return UnexpectedPrefix + run.launch.error;
    }
    if run.stderr != "" {
      return UnexpectedPrefix + ToolErrorText(run.stderr);
    }
    if run.stdout.NotJson? {
      return ParseFailedMessage;
    }
    var results := ResultsOrEmpty(run.stdout.results);
    var formatted: seq<string> := [];
    ghost var found: seq<Finding> := [];
    for i := 0 to |results|
      invariant |found| == i
      invariant forall j :: 0 <= j < i ==> Lookup(results[j]) == Success(found[j])
      invariant formatted == Blocks(found)
    {
      match Lookup(results[i])
      case Failure(key) =>
        MissingKeyReported(run, i);
        return UnexpectedPrefix + KeyErrorText(key);
      case Success(f) =>
        BlocksSnoc(found, f);
        formatted := formatted + [Block(f)];
        found := found + [f];
    }
    CompleteResultsRendered(run, found);
    text := if |formatted| > 0 then Join(BlockSeparator, formatted) else NoIssues;
  }

  // ---------------------------------------------------------------------
  // The layout of the text, and reading it back

  /** The fields of a finding hold no line break, so each stays on its own line. */
  predicate SingleLine(f: Finding) {
    NoNewline(f.filename) && NoNewline(f.issueText) &&
    NoNewline(f.issueSeverity) && NoNewline(f.issueConfidence)
  }

  lemma LabelledHasNoNewline(tag: string, value: string)
    requires NoNewline(tag) && NoNewline(value)
    ensures NoNewline(tag + value)
  {
    forall i | 0 <= i < |tag + value| ensures (tag + value)[i] != '\n' {
      if i < |tag| {
        assert (tag + value)[i] == tag[i];
      } else {
        assert (tag + value)[i] == value[i - |tag|];
      }
    }
  }

  lemma BlockLinesAreSingle(f: Finding)
    requires SingleLine(f)
    ensures forall k :: 0 <= k < |BlockLines(f)| ==> NoNewline(BlockLines(f)[k])
  {
    var ls := BlockLines(f);
    forall k | 0 <= k < |ls| ensures NoNewline(ls[k]) {
      if k == 0 { LabelledHasNoNewline(FileLabel, f.filename); }
      else if k == 1 { LabelledHasNoNewline(IssueLabel, f.issueText); }
      else if k == 2 { LabelledHasNoNewline(SeverityLabel, f.issueSeverity); }
      else if k == 3 { LabelledHasNoNewline(ConfidenceLabel, f.issueConfidence); }
      else if k == 4 {
        IntToStringHasNoNewline(f.lineNumber);
        LabelledHasNoNewline(LineLabel, IntToString(f.lineNumber));
      }
    }
  }

  /**
   * A block is six lines: "File: ", "Issue: ", "Severity: ", "Confidence: " and
   * "Line Number: " each followed by its field, then the divider.
   */
  lemma BlockLayout(f: Finding)
    requires SingleLine(f)
    ensures Split(Block(f)) == BlockLines(f)
  {
    BlockLinesAreSingle(f);
    SplitJoin(BlockLines(f));
  }

  /** Groups of lines laid end to end with one empty line between neighbouring groups. */
  function JoinGroups(groups: seq<seq<string>>): seq<string>
    requires |groups| >= 1
  {
    if |groups| == 1 then groups[0]
    else JoinGroups(groups[..|groups| - 1]) + [""] + groups[|groups| - 1]
  }

  /** Every group has six lines. */
  predicate Sixes(groups: seq<seq<string>>) {
    forall i :: 0 <= i < |groups| ==> |groups[i]| == 6
  }

  /** The k-th group of six lines, and the line after it, in lines laid out in groups of six. */
  function BlockAt(ls: seq<string>, k: nat): seq<string>
    requires 7 * k + 6 <= |ls|
  {
    ls[7 * k..7 * k + 6]
  }

  function SeparatorAt(ls: seq<string>, k: nat): string
    requires 7 * k + 6 < |ls|
  {
    ls[7 * k + 6]
  }

  lemma {:induction false} JoinGroupsLength(groups: seq<seq<string>>)
    requires |groups| >= 1 && Sixes(groups)
    ensures |JoinGroups(groups)| == 7 * |groups| - 1
  {
    if |groups| > 1 { JoinGroupsLength(groups[..|groups| - 1]); }
  }

  /** Appending a separator and a group leaves the earlier groups and separators where they were. */
  lemma GroupsAfterAppend(head: seq<string>, m: nat, block: seq<string>)
    requires m >= 1 && |head| == 7 * m - 1 && |block| == 6
    ensures forall k :: 0 <= k < m ==> BlockAt(head + [""] + block, k) == BlockAt(head, k)
    ensures BlockAt(head + [""] + block, m) == block
    ensures forall k :: 0 <= k < m - 1 ==> SeparatorAt(head + [""] + block, k) == SeparatorAt(head, k)
    ensures SeparatorAt(head + [""] + block, m - 1) == ""
  {
    var ls := head + [""] + block;
    assert ls[7 * m..7 * m + 6] == block;
    forall k | 0 <= k < m ensures BlockAt(ls, k) == BlockAt(head, k) {
      assert ls[7 * k..7 * k + 6] == head[7 * k..7 * k + 6];
    }
  }

  lemma {:induction false} JoinGroupsShape(groups: seq<seq<string>>)
    requires |groups| >= 1 && Sixes(groups)
    ensures |JoinGroups(groups)| == 7 * |groups| - 1
    ensures forall k :: 0 <= k < |groups| ==> BlockAt(JoinGroups(groups), k) == groups[k]
    ensures forall k :: 0 <= k < |groups| - 1 ==> SeparatorAt(JoinGroups(groups), k) == ""
  {
    JoinGroupsLength(groups);
    if |groups| > 1 {
      var init := groups[..|groups| - 1];
      JoinGroupsShape(init);
      GroupsAfterAppend(JoinGroups(init), |init|, groups[|groups| - 1]);
    }
  }

  /** The lines of each finding's block, one group per finding. */
  function BlockGroups(fs: seq<Finding>): (groups: seq<seq<string>>)
    ensures |groups| == |fs| && Sixes(groups)
    ensures forall i :: 0 <= i < |fs| ==> groups[i] == BlockLines(fs[i])
  {
    seq(|fs|, i requires 0 <= i < |fs| => BlockLines(fs[i]))
  }

  /** The lines of the text for one or more findings: the blocks' lines with an empty line between blocks. */
  function RenderedLines(fs: seq<Finding>): seq<string>
    requires |fs| >= 1
  {
    JoinGroups(BlockGroups(fs))
  }

  lemma RenderedLinesSnoc(fs: seq<Finding>)
    requires |fs| >= 1
    ensures |fs| == 1 ==> RenderedLines(fs) == BlockLines(fs[0])
    ensures |fs| > 1 ==>
      RenderedLines(fs) == RenderedLines(fs[..|fs| - 1]) + [""] + BlockLines(fs[|fs| - 1])
  {
    var groups := BlockGroups(fs);
    if |fs| > 1 {
      assert groups[..|groups| - 1] == BlockGroups(fs[..|fs| - 1]);
    }
  }

  lemma RenderSnoc(fs: seq<Finding>)
    requires |fs| >= 2
    ensures Render(fs) == Render(fs[..|fs| - 1]) + BlockSeparator + Block(fs[|fs| - 1])
  {
    var bs := Blocks(fs);
    assert bs[..|bs| - 1] == Blocks(fs[..|fs| - 1]);
  }

  /** Splitting the text for N findings gives N blocks of six lines and N - 1 empty separator lines. */
  lemma {:induction false} RenderLayout(fs: seq<Finding>)
    requires |fs| >= 1
    requires forall i :: 0 <= i < |fs| ==> SingleLine(fs[i])
    ensures Split(Render(fs)) == RenderedLines(fs)
  {
    var last := fs[|fs| - 1];
    BlockLayout(last);
    if |fs| > 1 {
      var init := fs[..|fs| - 1];
      RenderLayout(init);
      RenderSnoc(fs);
      RenderedLinesSnoc(fs);
      SplitAtBlankLine(Render(init), Block(last));
    }
  }

  /**
   * The lines of the text for N findings: 7N - 1 lines, the k-th group of six
   * is the k-th finding's block, and each of the N - 1 lines between groups is empty.
   */
  lemma RenderedLinesShape(fs: seq<Finding>)
    requires |fs| >= 1
    ensures |RenderedLines(fs)| == 7 * |fs| - 1
    ensures forall k :: 0 <= k < |fs| ==> BlockAt(RenderedLines(fs), k) == BlockLines(fs[k])
    ensures forall k :: 0 <= k < |fs| - 1 ==> SeparatorAt(RenderedLines(fs), k) == ""
  {
    JoinGroupsShape(BlockGroups(fs));
  }

  lemma BlockStartsWithFileLabel(f: Finding)
    ensures HasPrefix(Block(f), FileLabel)
  {
    var ls := BlockLines(f);
    JoinStartsWithFirst("\n", ls);
    assert HasPrefix(ls[0], FileLabel);
    PrefixOfPrefix(Block(f), ls[0], FileLabel);
  }

  /** The text for one or more findings opens with the first block's "File: " line. */
  lemma RenderStartsWithFileLabel(fs: seq<Finding>)
    requires |fs| >= 1
    ensures HasPrefix(Render(fs), FileLabel)
  {
    JoinStartsWithFirst(BlockSeparator, Blocks(fs));
    BlockStartsWithFileLabel(fs[0]);
    PrefixOfPrefix(Render(fs), Block(fs[0]), FileLabel);
  }

  /** The value of a line `tag + value`, or None when the line does not carry that tag. */
  function Field(line: string, tag: string): (r: Option<string>)
    ensures r.Some? <==> HasPrefix(line, tag)
    ensures r.Some? ==> line == tag + r.value
  {
    if HasPrefix(line, tag) then Some(line[|tag|..]) else None
  }

  lemma FieldOfLabelled(tag: string, value: string)
    ensures Field(tag + value, tag) == Some(value)
  {
    assert (tag + value)[..|tag|] == tag;
    assert (tag + value)[|tag|..] == value;
  }

  /** Reads one block's six lines back into a finding. */
  function ParseBlock(lines: seq<string>): Option<Finding>
    requires |lines| == 6
  {
    var file := Field(lines[0], FileLabel);
    var issue := Field(lines[1], IssueLabel);
    var severity := Field(lines[2], SeverityLabel);
    var confidence := Field(lines[3], ConfidenceLabel);
    var number := match Field(lines[4], LineLabel) case None => None case Some(d) => ParseInt(d);
    if file.Some? && issue.Some? && severity.Some? && confidence.Some? && number.Some? && lines[5] == Divider
    then Some(Finding(file.value, issue.value, severity.value, confidence.value, number.value))
    else None
  }

  /** Cuts lines into groups of six separated by single empty lines, or None when they are not laid out so. */
  function Chunks(lines: seq<string>): (r: Option<seq<seq<string>>>)
    ensures r.Some? ==> |r.value| >= 1 && Sixes(r.value)
    decreases |lines|
  {
    if |lines| == 6 then Some([lines])
    else if |lines| > 7 && lines[|lines| - 7] == "" then
      match Chunks(lines[..|lines| - 7])
      case None => None
      case Some(groups) => Some(groups + [lines[|lines| - 6..]])
    else None
  }

  /** Reads every group as a finding, or None when some group does not read as one. */
  function ParseGroups(groups: seq<seq<string>>): (r: Option<seq<Finding>>)
    requires Sixes(groups)
    ensures r.Some? <==> forall i :: 0 <= i < |groups| ==> ParseBlock(groups[i]).Some?
    ensures r.Some? ==>
      |r.value| == |groups| && forall i :: 0 <= i < |groups| ==> ParseBlock(groups[i]) == Some(r.value[i])
  {
    if forall i :: 0 <= i < |groups| ==> ParseBlock(groups[i]).Some? then
      Some(seq(|groups|, i requires 0 <= i < |groups| && ParseBlock(groups[i]).Some? =>
        ParseBlock(groups[i]).value))
    else None
  }

  /** Reads six-line blocks separated by single empty lines. */
  function ParseLines(lines: seq<string>): Option<seq<Finding>> {
    match Chunks(lines)
    case None => None
    case Some(groups) => ParseGroups(groups)
  }

  /** Reads the text `run_bandit` produces for complete findings back into the findings. */
  function ParseRendered(text: string): Option<seq<Finding>> {
    if text == NoIssues then Some([]) else ParseLines(Split(text))
  }

  lemma ParseBlockLines(f: Finding)
    ensures ParseBlock(BlockLines(f)) == Some(f)
  {
    FieldOfLabelled(FileLabel, f.filename);
    FieldOfLabelled(IssueLabel, f.issueText);
    FieldOfLabelled(SeverityLabel, f.issueSeverity);
    FieldOfLabelled(ConfidenceLabel, f.issueConfidence);
    FieldOfLabelled(LineLabel, IntToString(f.lineNumber));
    IntToStringRoundTrip(f.lineNumber);
  }

  /** Groups of six lines laid out with empty lines between them are cut back into the same groups. */
  lemma {:induction false} ChunksJoinGroups(groups: seq<seq<string>>)
    requires |groups| >= 1 && Sixes(groups)
    ensures Chunks(JoinGroups(groups)) == Some(groups)
  {
    var n := |groups|;
    if n > 1 {
      var init := groups[..n - 1];
      ChunksJoinGroups(init);
      JoinGroupsLength(init);
      var ls := JoinGroups(groups);
      assert ls[..|ls| - 7] == JoinGroups(init);
      assert ls[|ls| - 7] == "";
      assert ls[|ls| - 6..] == groups[n - 1];
      assert init + [groups[n - 1]] == groups;
    } else {
      assert groups == [groups[0]];
    }
  }

  /** The blocks of the findings read back as the findings. */
  lemma ParseBlockGroups(fs: seq<Finding>)
    ensures ParseGroups(BlockGroups(fs)) == Some(fs)
  {
    var groups := BlockGroups(fs);
    forall i | 0 <= i < |fs| ensures ParseBlock(groups[i]) == Some(fs[i]) {
      ParseBlockLines(fs[i]);
    }
    assert ParseGroups(groups).value == fs;
  }

  lemma ParseRenderedLines(fs: seq<Finding>)
    requires |fs| >= 1
    ensures ParseLines(RenderedLines(fs)) == Some(fs)
  {
    ChunksJoinGroups(BlockGroups(fs));
    ParseBlockGroups(fs);
  }

  /**
   * The formatted text loses nothing: the findings, their number and their
   * order can all be read back from it (given single-line fields).
   */
  lemma RenderRoundTrip(fs: seq<Finding>)
    requires forall i :: 0 <= i < |fs| ==> SingleLine(fs[i])
    ensures ParseRendered(Render(fs)) == Some(fs)
  {
    if |fs| > 0 {
      RenderLayout(fs);
      ParseRenderedLines(fs);
      RenderStartsWithFileLabel(fs);
      assert Render(fs)[0] == FileLabel[0];
    }
  }

  // ---------------------------------------------------------------------
  // Which outcome a returned string reports

  /** Whether Bandit ran and every entry of its report could be read. */
  predicate Completed(run: ToolRun) {
    Ran(run) && run.stderr == "" && run.stdout.Object? &&
    Lookups(ResultsOrEmpty(run.stdout.results)).Success?
  }

  /** Text that reads as an analysis: the "No issues found." sentinel, or blocks opening with "File: ". */
  predicate ReadsAsAnalysis(text: string) {
    text == NoIssues || HasPrefix(text, FileLabel)
  }

  /** The first characters that tell the messages apart. */
  lemma MessagesOpenDistinctly()
    ensures MissingFileMessage[0] == 'E'
    ensures ParseFailedMessage[0] == 'E'
    ensures UnexpectedPrefix[0] == 'U'
    ensures NoIssues[0] == 'N'
    ensures FileLabel[0] == 'F'
  {
    assert ErrorPrefix[0] == 'E';
  }

  /**
   * Every failure is reported as a string that cannot be mistaken for an
   * analysis, and every completed run is: in particular a non-empty error
   * stream is never taken for success.
   */
  lemma AnalysisOnlyWhenCompleted(run: ToolRun)
    ensures ReadsAsAnalysis(BanditResult(run)) <==> Completed(run)
  {
    var text := BanditResult(run);
    if Completed(run) {
      var fs := Lookups(ResultsOrEmpty(run.stdout.results)).value;
      assert text == Render(fs);
      if |fs| > 0 {
        RenderStartsWithFileLabel(fs);
      }
    } else {
      MessagesOpenDistinctly();
      if !run.fileExists || run.launch.ExecutableMissing? {
        assert text == MissingFileMessage;
        assert text[0] == 'E';
      } else if run.launch.LaunchError? {
        assert text == UnexpectedPrefix + run.launch.error;
        assert text[0] == 'U';
      } else if run.stderr != "" {
        assert text == UnexpectedPrefix + ToolErrorText(run.stderr);
        assert text[0] == 'U';
      } else if run.stdout.NotJson? {
        assert text == ParseFailedMessage;
        assert text[0] == 'E';
      } else {
        var key := Lookups(ResultsOrEmpty(run.stdout.results)).error;
        assert text == UnexpectedPrefix + KeyErrorText(key);
        assert text[0] == 'U';
      }
    }
  }

  /**
   * The fixed messages of the failure paths, and the sentinel for an empty or
   * absent `results`. A missing executable raises the same FileNotFoundError
   * as a missing file, so it is reported with the missing-file message.
   */
  lemma FixedOutcomes(run: ToolRun)
    ensures !run.fileExists ==>
      BanditResult(run) == "Error: " + "The temporary file could not be found. Please check the upload and try again."
    ensures run.fileExists && run.launch == ExecutableMissing ==>
      BanditResult(run) == "Error: " + "The temporary file could not be found. Please check the upload and try again."
    ensures run.fileExists && run.launch.LaunchError? ==>
      BanditResult(run) == "Unexpected error occurred: " + run.launch.error
    ensures Ran(run) && run.stderr != "" ==>
      BanditResult(run) == "Unexpected error occurred: Bandit error: " + run.stderr
    ensures Ran(run) && run.stderr == "" && run.stdout.NotJson? ==>
      BanditResult(run) == "Error: " + "Failed to parse Bandit JSON output."
    ensures Ran(run) && run.stderr == "" && run.stdout in {Object(None), Object(Some([]))} ==>
      BanditResult(run) == "No issues found."
  {
    var text := BanditResult(run);
    if !run.fileExists || run.launch == ExecutableMissing {
      assert text == MissingFileMessage;
    } else if run.launch.LaunchError? {
      assert text == UnexpectedPrefix + run.launch.error;
    } else if run.stderr != "" {
      assert text == UnexpectedPrefix + ToolErrorText(run.stderr);
    } else if run.stdout.NotJson? {
      assert text == ParseFailedMessage;
    }
  }

  /** When an entry lacks a key, the KeyError for the first such entry is what comes back. */
  lemma MissingKeyReported(run: ToolRun, i: nat)
    requires Ran(run) && run.stderr == "" && run.stdout.Object?
    requires i < |ResultsOrEmpty(run.stdout.results)|
    requires Lookup(ResultsOrEmpty(run.stdout.results)[i]).Failure?
    requires forall j :: 0 <= j < i ==> Lookup(ResultsOrEmpty(run.stdout.results)[j]).Success?
    ensures BanditResult(run) ==
      "Unexpected error occurred: '" + Lookup(ResultsOrEmpty(run.stdout.results)[i]).error + "'"
  {
    LookupsFirstFailure(ResultsOrEmpty(run.stdout.results), i);
  }

  /** When every entry is complete, the text is the rendering of the entries, one finding each, in order. */
  lemma CompleteResultsRendered(run: ToolRun, fs: seq<Finding>)
    requires Ran(run) && run.stderr == "" && run.stdout.Object?
    requires |fs| == |ResultsOrEmpty(run.stdout.results)|
    requires forall i :: 0 <= i < |fs| ==> Lookup(ResultsOrEmpty(run.stdout.results)[i]) == Success(fs[i])
    ensures BanditResult(run) == Render(fs)
  {
    var rs := ResultsOrEmpty(run.stdout.results);
    var r := Lookups(rs);
    assert r.Success?;
    assert r.value == fs;
  }
}

/**
 * The report formatter of `_format_execution_result`: a fixed-shape text made of
 * a header, a status line, a timing line (completed runs with a time only), the
 * program output cut from between its markers, a performance excerpt filtered
 * from the stdout lines, and a "did not complete" note for runs that did not
 * complete. The error stream is never shown.
 */
module Report {
  import opened Text
  import opened Timing

  /** The record `run_code_comparison` hands to the formatter for one code variant. */
  datatype ExecutionRecord = ExecutionRecord(status: string, stdout: string, executionTime: Option<Decimal>)

  const Completed := "completed"
  const ProgramStart := "----- PROGRAM OUTPUT -----"
  const ProgramEnd := "----- END PROGRAM OUTPUT -----"
  const CompletedLine := "✅ **Status**: Completed Successfully"
  const TimingPrefix := "⏱️ **Execution Time**: "
  const NoteLine := "**Note**: The job did not complete successfully. Check your code for errors."
  const NoTimingLine := "No timing information available."

  function NoResults(codeType: string): string
  {
    "**" + codeType + " - No Results**\n\nExecution not started or failed to submit."
  }

  function Header(codeType: string): string
  {
    "**🏃‍♂️ " + codeType + " - Execution Results**\n"
  }

  /** The timing line, around the time as the source renders it (four decimals, left opaque here). */
  function TimingLine(renderedTime: string): string
  {
    TimingPrefix + renderedTime + " seconds"
  }

  predicate IsTimingLine(line: string)
  {
    StartsWith(line, TimingPrefix)
  }

  predicate IsAsciiLetter(c: char)
  {
    ('a' <= c <= 'z') || ('A' <= c <= 'Z')
  }

  function Upper(c: char): char
  {
    if 'a' <= c <= 'z' then (c as int - 32) as char else c
  }

  function Lower(c: char): char
  {
    if 'A' <= c <= 'Z' then (c as int + 32) as char else c
  }

  /**
   * Python's `str.title()` on ASCII letters: a letter that follows a non-letter is
   * upper-cased, every other letter lower-cased; other characters are kept.
   */
  function Title(s: string): (r: string)
    ensures |r| == |s|
    ensures forall k :: 0 <= k < |s| && !IsAsciiLetter(s[k]) ==> r[k] == s[k]
    ensures forall k :: 0 <= k < |s| && IsAsciiLetter(s[k]) ==>
      r[k] == (if k == 0 || !IsAsciiLetter(s[k - 1]) then Upper(s[k]) else Lower(s[k]))
  {
    seq(|s|, k requires 0 <= k < |s| =>
      if !IsAsciiLetter(s[k]) then s[k]
      else if k == 0 || !IsAsciiLetter(s[k - 1]) then Upper(s[k])
      else Lower(s[k]))
  }

  function OtherStatusLine(status: string): string
  {
    "⏳ **Status**: " + Title(status)
  }

  /** The status of a failed run, as the report shows it. */
  lemma FailedTitle()
    ensures Title("failed") == "Failed"
  {
  }

  /**
   * The program output: the text between the first start marker and the first end
   * marker, stripped, when both markers are present and the end marker comes after
   * the start marker; otherwise nothing.
   */
  function ProgramOutput(stdout: string): (r: string)
    ensures r != "" ==>
      && Contains(stdout, ProgramStart) && Contains(stdout, ProgramEnd)
      && IndexOf(stdout, ProgramStart).value + |ProgramStart| < IndexOf(stdout, ProgramEnd).value
  {
    if Contains(stdout, ProgramStart) && Contains(stdout, ProgramEnd) then
      var start := IndexOf(stdout, ProgramStart).value + |ProgramStart|;
      var end := IndexOf(stdout, ProgramEnd).value;
      if start > 0 && end > start then Strip(stdout[start..end]) else ""
    else ""
  }

  /** With both markers in order, the program output is what lies between them, stripped. */
  lemma ProgramOutputBetweenMarkers(stdout: string, i: nat, j: nat)
    requires IndexOf(stdout, ProgramStart) == Some(i) && IndexOf(stdout, ProgramEnd) == Some(j)
    requires i + |ProgramStart| < j
    ensures ProgramOutput(stdout) == Strip(stdout[i + |ProgramStart|..j])
  {
    assert Contains(stdout, ProgramStart) && Contains(stdout, ProgramEnd);
    assert i + |ProgramStart| > 0;
  }

  /** The allow-list of lines the performance excerpt keeps. */
  predicate IsPerformanceLine(line: string)
  {
    || Contains(line, "BENCHMARK EXECUTION")
    || Contains(line, "Start time:")
    || Contains(line, "End time:")
    || Contains(line, "EXECUTION TIME:")
    || Contains(line, "✅") || Contains(line, "completed successfully")
    || (Contains(line, "Using") && Contains(line, "iterations"))
    || Contains(line, "averaged over")
  }

  /** Each line's allow-list bit. */
  function PerformanceMask(lines: seq<string>): seq<bool>
  {
    seq(|lines|, i requires 0 <= i < |lines| => IsPerformanceLine(lines[i]))
  }

  /** The lines on the allow-list, in their original order. */
  function PerformanceLines(lines: seq<string>): seq<string>
  {
    Select(lines, PerformanceMask(lines))
  }

  /** The first line at or after `k` that contains `t`. */
  function FirstLineWith(lines: seq<string>, t: string, k: nat): (r: Option<nat>)
    decreases |lines| - k
    ensures r.Some? ==> k <= r.value < |lines| && Contains(lines[r.value], t)
    ensures r.Some? ==> forall j :: k <= j < r.value ==> !Contains(lines[j], t)
    ensures r.None? ==> forall j :: k <= j < |lines| ==> !Contains(lines[j], t)
  {
    if k >= |lines| then None
    else if Contains(lines[k], t) then Some(k)
    else FirstLineWith(lines, t, k + 1)
  }

  /** The excerpt under "Performance Metrics", given the lines the filter kept. */
  function Excerpt(lines: seq<string>, performance: seq<string>): string
  {
    if |performance| > 0 then JoinLines(performance)
    else match FirstLineWith(lines, "EXECUTION TIME", 0)
      case Some(i) => lines[i]
      case None => NoTimingLine
  }

  function StatusParts(record: ExecutionRecord, render: Decimal -> string): seq<string>
  {
    if record.status == Completed then
      [CompletedLine] + (if record.executionTime.Some? then [TimingLine(render(record.executionTime.value))] else [])
    else [OtherStatusLine(record.status)]
  }

  function ProgramParts(programOutput: string): seq<string>
  {
    if programOutput != "" then ["**📤 Program Output:**", "```", programOutput, "```", ""] else []
  }

  function MetricsParts(lines: seq<string>): seq<string>
  {
    ["**📊 Performance Metrics:**", "```", Excerpt(lines, PerformanceLines(lines)), "```", ""]
  }

  function NoteParts(status: string): seq<string>
  {
    if status != Completed then [NoteLine] else []
  }

  /** The blank line, the program output and the performance metrics. */
  function BodyParts(stdout: string): seq<string>
  {
    [""] + ProgramParts(ProgramOutput(stdout)) + MetricsParts(Lines(stdout))
  }

  /** The parts the report is joined from, one per line. */
  function ReportParts(record: ExecutionRecord, codeType: string, render: Decimal -> string): seq<string>
  {
    [Header(codeType)] + StatusParts(record, render) + BodyParts(record.stdout) + NoteParts(record.status)
  }

  function ExecutionReport(result: Option<ExecutionRecord>, codeType: string, render: Decimal -> string): string
  {
    match result
    case None => NoResults(codeType)
    case Some(record) => JoinLines(ReportParts(record, codeType, render))
  }

  /** The filtering loop of `_format_execution_result`. */
  method CollectPerformanceLines(lines: seq<string>) returns (performance: seq<string>)
    ensures performance == PerformanceLines(lines)
  {
    performance := [];
    var i := 0;
    while i < |lines|
      invariant 0 <= i <= |lines|
      invariant performance == Select(lines[..i], PerformanceMask(lines)[..i])
    {
      SelectSnoc(lines, PerformanceMask(lines), i);
      var line := lines[i];
      if Contains(line, "BENCHMARK EXECUTION") {
        performance := performance + [line];
      } else if Contains(line, "Start time:") {
        performance := performance + [line];
      } else if Contains(line, "End time:") {
        performance := performance + [line];
      } else if Contains(line, "EXECUTION TIME:") {
        performance := performance + [line];
      } else if Contains(line, "✅") || Contains(line, "completed successfully") {
        performance := performance + [line];
      } else if Contains(line, "Using") && Contains(line, "iterations") {
        performance := performance + [line];
      } else if Contains(line, "averaged over") {
        performance := performance + [line];
      }
      i := i + 1;
    }
    assert lines[..i] == lines && PerformanceMask(lines)[..i] == PerformanceMask(lines);
  }

  /** The excerpt under "Performance Metrics", as the loop and its fallback compute it. */
  method PerformanceExcerpt(lines: seq<string>) returns (excerpt: string)
    ensures excerpt == Excerpt(lines, PerformanceLines(lines))
  {
    var performance := CollectPerformanceLines(lines);
    if |performance| > 0 {
      excerpt := JoinLines(performance);
    } else {
      var timeLine := FirstLineWith(lines, "EXECUTION TIME", 0);
      if timeLine.Some? {
        excerpt := lines[timeLine.value];
      } else {
        excerpt := NoTimingLine;
      }
    }
  }

  /** The status line, and the timing line of a completed run that has a time. */
  method StatusSection(record: ExecutionRecord, render: Decimal -> string) returns (parts: seq<string>)
    ensures parts == StatusParts(record, render)
  {
    if record.status == Completed {
      parts := [CompletedLine];
      if record.executionTime.Some? {
        parts := parts + [TimingLine(render(record.executionTime.value))];
      }
    } else {
      parts := [OtherStatusLine(record.status)];
    }
  }

  /** The blank line, the program output when there is any, and the performance metrics. */
  method BodySection(stdout: string) returns (parts: seq<string>)
    ensures parts == BodyParts(stdout)
  {
    parts := [""];
    var programOutput := ProgramOutput(stdout);
    if programOutput != "" {
      parts := parts + ["**📤 Program Output:**", "```", programOutput, "```", ""];
    }
    assert parts == [""] + ProgramParts(programOutput);
    ghost var head := parts;
    parts := parts + ["**📊 Performance Metrics:**", "```"];
    var lines := Lines(stdout);
    var excerpt := PerformanceExcerpt(lines);
    parts := parts + [excerpt, "```", ""];
    assert parts == head + MetricsParts(lines);
  }

  /** `_format_execution_result`, building the list of parts step by step. */
  method FormatExecutionResult(result: Option<ExecutionRecord>, codeType: string, render: Decimal -> string)
    returns (report: string)
    ensures report == ExecutionReport(result, codeType, render)
  {
    if result.None? {
      return NoResults(codeType);
    }
    var record := result.value;
    var status := StatusSection(record, render);
    var body := BodySection(record.stdout);
    var parts := [Header(codeType)] + status + body;
    if record.status != Completed {
      parts := parts + [NoteLine];
    }
    assert parts == ReportParts(record, codeType, render);
    report := JoinLines(parts);
  }

  /**
   * The shape of a report: the header, the status line, then the timing line
   * exactly when the run completed with a time; and the final line is the note
   * exactly when the run did not complete.
   */
  lemma ReportShape(record: ExecutionRecord, codeType: string, render: Decimal -> string)
    ensures var parts := ReportParts(record, codeType, render);
      && |parts| >= 8
      && parts[0] == Header(codeType)
      && parts[1] == (if record.status == Completed then CompletedLine else OtherStatusLine(record.status))
      && (IsTimingLine(parts[2]) <==> record.status == Completed && record.executionTime.Some?)
      && (record.status == Completed && record.executionTime.Some? ==>
            parts[2] == TimingLine(render(record.executionTime.value)))
      && (parts[|parts| - 1] == NoteLine <==> record.status != Completed)
  {
    var status := StatusParts(record, render);
    var rest := BodyParts(record.stdout);
    var note := NoteParts(record.status);
    PartsLayout(Header(codeType), status, rest, note);
    if record.status == Completed && record.executionTime.Some? {
      var line := TimingLine(render(record.executionTime.value));
      assert line[..|TimingPrefix|] == TimingPrefix;
    }
  }

  /** Where the header, the status lines, the body and the note fall in the joined parts. */
  lemma PartsLayout(header: string, status: seq<string>, rest: seq<string>, note: seq<string>)
    requires 1 <= |status| <= 2 && |rest| >= 6 && rest[0] == "" && rest[|rest| - 1] == "" && |note| <= 1
    ensures var parts := [header] + status + rest + note;
      && |parts| >= 8 && parts[0] == header && parts[1] == status[0]
      && parts[2] == (if |status| == 2 then status[1] else "")
      && parts[|parts| - 1] == (if |note| == 1 then note[0] else "")
  {
  }

  /** No report of a run shows a time it does not have, or omits one it has once completed. */
  lemma NoTimingLineWithoutTime(record: ExecutionRecord, codeType: string, render: Decimal -> string)
    requires record.executionTime.None?
    ensures var parts := ReportParts(record, codeType, render);
      !IsTimingLine(parts[1]) && !IsTimingLine(parts[2])
  {
    ReportShape(record, codeType, render);
    assert TimingPrefix[0] == '\U{23F1}';
    assert CompletedLine[0] != TimingPrefix[0];
    assert OtherStatusLine(record.status)[0] != TimingPrefix[0];
  }

  /**
   * The excerpt is exactly the allow-listed lines, in order: the k-th excerpt line
   * is the line at the k-th allow-listed index.
   */
  lemma PerformanceLinesExact(lines: seq<string>)
    ensures var pos := Positions(PerformanceMask(lines));
      && |PerformanceLines(lines)| == |pos|
      && (forall k :: 0 <= k < |pos| ==> PerformanceLines(lines)[k] == lines[pos[k]])
      && (forall k, l :: 0 <= k < l < |pos| ==> pos[k] < pos[l])
      && (forall i :: 0 <= i < |lines| ==> (i in pos <==> IsPerformanceLine(lines[i])))
  {
    SelectAtPositions(lines, PerformanceMask(lines));
  }

  /** Every excerpt line is on the allow-list. */
  lemma PerformanceLinesAllowed(lines: seq<string>)
    ensures forall k :: 0 <= k < |PerformanceLines(lines)| ==> IsPerformanceLine(PerformanceLines(lines)[k])
  {
    forall k | 0 <= k < |PerformanceLines(lines)| ensures IsPerformanceLine(PerformanceLines(lines)[k]) {
      SelectedAreKept(lines, PerformanceMask(lines), k);
    }
  }

  /**
   * When no line is on the allow-list, the excerpt is the first line mentioning
   * EXECUTION TIME, or the fixed "no timing" text when there is none.
   */
  lemma ExcerptFallback(lines: seq<string>)
    requires forall i :: 0 <= i < |lines| ==> !IsPerformanceLine(lines[i])
    ensures var e := Excerpt(lines, PerformanceLines(lines));
      || (e == NoTimingLine && forall i :: 0 <= i < |lines| ==> !Contains(lines[i], "EXECUTION TIME"))
      || (exists i :: 0 <= i < |lines| && e == lines[i] && Contains(lines[i], "EXECUTION TIME")
            && forall j :: 0 <= j < i ==> !Contains(lines[j], "EXECUTION TIME"))
  {
    SelectNone(lines, PerformanceMask(lines));
  }
}

/**
 * `run_code_comparison`: the guards on blank inputs, the call to the benchmark
 * service, the mapping of each side's outcome onto an execution record (with a
 * missing or zero time replaced by 0.001), and the two reports.
 */
module Comparison {
  import opened Text
  import opened Timing
  import opened Report

  /**
   * What the benchmark service reports for one side: the formatted status
   * ("Success" or anything else), the formatted time if any, and the raw stdout.
   */
  datatype SideResult = SideResult(status: string, executionTime: Option<Decimal>, stdout: string)

  datatype BenchmarkResults = BenchmarkResults(cpu: SideResult, gpu: SideResult)

  const NoOriginal := "No original code provided for execution."
  const NoOptimizedToRun := "No optimized code to execute."
  const OriginalReady := "Original code ready for execution."
  const NoOptimizedYet := "No optimized code available. Please analyze the code first."
  const ComparisonError := "Error running code comparison: "
  const CpuLabel := "Original CPU Code"
  const GpuLabel := "GPU-Optimized Code"

  /**
   * The record handed to the report formatter: "completed" exactly for a
   * successful side and "failed" otherwise, the raw stdout, and always a time,
   * never zero, equal to the reported one whenever that is present and non-zero.
   */
  function SideRecord(side: SideResult): (r: ExecutionRecord)
    ensures r.status == Completed <==> side.status == "Success"
    ensures r.status != Completed ==> r.status == "failed"
    ensures r.stdout == side.stdout
    ensures r.executionTime.Some? && !IsZero(r.executionTime.value)
    ensures side.executionTime.Some? && !IsZero(side.executionTime.value) ==>
      r.executionTime == side.executionTime
    ensures side.executionTime.None? || IsZero(side.executionTime.value) ==> r.executionTime == Some(Sentinel)
  {
    ExecutionRecord(if side.status == "Success" then Completed else "failed",
                    side.stdout,
                    Some(TimeOrSentinel(side.executionTime)))
  }

  /** The two reports, original first, for a pair of code texts. */
  function Compare(original: string, optimized: string,
                   runBenchmark: (string, string) -> Outcome<BenchmarkResults>,
                   render: Decimal -> string): (string, string)
  {
    if Strip(original) == "" then (NoOriginal, NoOptimizedToRun)
    else if Strip(optimized) == "" then (OriginalReady, NoOptimizedYet)
    else match runBenchmark(original, optimized)
      case Raised(m) => (ComparisonError + m, ComparisonError + m)
      case Returned(results) =>
        (ExecutionReport(Some(SideRecord(results.cpu)), CpuLabel, render),
         ExecutionReport(Some(SideRecord(results.gpu)), GpuLabel, render))
  }

  /** `run_code_comparison`, calling the formatter once per side. */
  method RunCodeComparison(original: string, optimized: string,
                           runBenchmark: (string, string) -> Outcome<BenchmarkResults>,
                           render: Decimal -> string)
    returns (originalReport: string, optimizedReport: string)
    ensures (originalReport, optimizedReport) == Compare(original, optimized, runBenchmark, render)
  {
    if Strip(original) == "" {
      return NoOriginal, NoOptimizedToRun;
    }
    if Strip(optimized) == "" {
      return OriginalReady, NoOptimizedYet;
    }
    var outcome := runBenchmark(original, optimized);
    if outcome.Raised? {
      var message := ComparisonError + outcome.message;
      return message, message;
    }
    var results := outcome.value;
    originalReport := FormatExecutionResult(Some(SideRecord(results.cpu)), CpuLabel, render);
    optimizedReport := FormatExecutionResult(Some(SideRecord(results.gpu)), GpuLabel, render);
  }

  /**
   * A blank input is answered with fixed guidance and the benchmark service is
   * never consulted: any two services give the same answer.
   */
  lemma GuardsSkipBackend(original: string, optimized: string,
                          run1: (string, string) -> Outcome<BenchmarkResults>,
                          run2: (string, string) -> Outcome<BenchmarkResults>,
                          render: Decimal -> string)
    requires Strip(original) == "" || Strip(optimized) == ""
    ensures Compare(original, optimized, run1, render) == Compare(original, optimized, run2, render)
    ensures Strip(original) == "" ==> Compare(original, optimized, run1, render) == (NoOriginal, NoOptimizedToRun)
    ensures Strip(original) != "" ==> Compare(original, optimized, run1, render) == (OriginalReady, NoOptimizedYet)
  {
  }

  /** A failing benchmark service yields the same error text on both sides, naming the failure. */
  lemma ErrorOnBothSides(original: string, optimized: string,
                         runBenchmark: (string, string) -> Outcome<BenchmarkResults>,
                         render: Decimal -> string)
    requires Strip(original) != "" && Strip(optimized) != ""
    requires runBenchmark(original, optimized).Raised?
    ensures var (a, b) := Compare(original, optimized, runBenchmark, render);
      a == b && StartsWith(a, ComparisonError)
      && a[|ComparisonError|..] == runBenchmark(original, optimized).message
  {
    var m := runBenchmark(original, optimized).message;
    assert (ComparisonError + m)[..|ComparisonError|] == ComparisonError;
    assert (ComparisonError + m)[|ComparisonError|..] == m;
  }

  /**
   * A successful side is reported as completed, followed by a timing line for a
   * non-zero time that is the reported time whenever that one is non-zero, and
   * the report does not end with the failure note. A missing or zero time is
   * shown as 0.001.
   */
  lemma SuccessShowsNonZeroTime(side: SideResult, codeType: string, render: Decimal -> string)
    requires side.status == "Success"
    ensures var parts := ReportParts(SideRecord(side), codeType, render);
      && parts[1] == CompletedLine
      && parts[|parts| - 1] != NoteLine
      && exists d: Decimal ::
           && !IsZero(d) && parts[2] == TimingLine(render(d))
           && (side.executionTime.Some? && !IsZero(side.executionTime.value) ==> d == side.executionTime.value)
           && (side.executionTime.None? || IsZero(side.executionTime.value) ==> d == Sentinel)
  {
    var r := SideRecord(side);
    ReportShape(r, codeType, render);
    var d := r.executionTime.value;
    assert !IsZero(d) && ReportParts(r, codeType, render)[2] == TimingLine(render(d));
  }

  /** A side that did not succeed is reported as "Failed", with no timing line, ending with the note. */
  lemma FailureShowsNote(side: SideResult, codeType: string, render: Decimal -> string)
    requires side.status != "Success"
    ensures var parts := ReportParts(SideRecord(side), codeType, render);
      && parts[1] == OtherStatusLine("failed") && Title("failed") == "Failed"
      && !IsTimingLine(parts[2])
      && parts[|parts| - 1] == NoteLine
  {
    ReportShape(SideRecord(side), codeType, render);
    FailedTitle();
  }

  /** With both inputs present and the service answering, each report is the formatter's report of its side. */
  lemma ReportsFollowSides(original: string, optimized: string,
                           runBenchmark: (string, string) -> Outcome<BenchmarkResults>,
                           render: Decimal -> string)
    requires Strip(original) != "" && Strip(optimized) != ""
    requires runBenchmark(original, optimized).Returned?
    ensures var results := runBenchmark(original, optimized).value;
      var (a, b) := Compare(original, optimized, runBenchmark, render);
      && a == JoinLines(ReportParts(SideRecord(results.cpu), CpuLabel, render))
      && b == JoinLines(ReportParts(SideRecord(results.gpu), GpuLabel, render))
      && ReportParts(SideRecord(results.cpu), CpuLabel, render)[0] == Header(CpuLabel)
      && ReportParts(SideRecord(results.gpu), GpuLabel, render)[0] == Header(GpuLabel)
  {
    var results := runBenchmark(original, optimized).value;
    ReportShape(SideRecord(results.cpu), CpuLabel, render);
    ReportShape(SideRecord(results.gpu), GpuLabel, render);
  }
}

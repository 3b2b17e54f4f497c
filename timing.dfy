/**
 * Execution-time extraction from benchmark output (`_extract_execution_time`):
 * a prioritised search for a canonical "TOTAL CPU|GPU EXECUTION TIME: <d+.d+>"
 * marker, then for any "<d+.d+> seconds", then a 0.001 sentinel when the text
 * mentions EXECUTION at all. Times are kept as the digits that were written,
 * never as floating-point numbers.
 */
module Timing {
  import opened Text

  /** A non-negative decimal number as written: the digits before and after the point. */
  datatype Decimal = Decimal(intDigits: string, fracDigits: string)

  /** The "ran but untimed" value 0.001, also used where a time is missing or zero. */
  const Sentinel := Decimal("0", "001")

  predicate IsDigit(c: char)
  {
    '0' <= c <= '9'
  }

  predicate AllDigits(s: string)
  {
    forall k :: 0 <= k < |s| ==> IsDigit(s[k])
  }

  /** What the regular expression `\d+\.\d+` can produce: digits on both sides of the point. */
  predicate WellFormed(d: Decimal)
  {
    |d.intDigits| > 0 && |d.fracDigits| > 0 && AllDigits(d.intDigits) && AllDigits(d.fracDigits)
  }

  /** The number is zero, which Python treats as false. */
  predicate IsZero(d: Decimal)
  {
    (forall k :: 0 <= k < |d.intDigits| ==> d.intDigits[k] == '0')
    && (forall k :: 0 <= k < |d.fracDigits| ==> d.fracDigits[k] == '0')
  }

  /** The length of the run of digits starting at `i`. */
  function DigitRun(s: string, i: nat): (n: nat)
    requires i <= |s|
    decreases |s| - i
    ensures i + n <= |s|
    ensures forall k :: i <= k < i + n ==> IsDigit(s[k])
    ensures i + n < |s| ==> !IsDigit(s[i + n])
  {
    if i < |s| && IsDigit(s[i]) then 1 + DigitRun(s, i + 1) else 0
  }

  /**
   * A match of `\d+\.\d+` starting at `i`: the number and the index just after it.
   * Both digit runs are maximal, as a greedy match that must be followed by the
   * point makes them.
   */
  function NumberAt(s: string, i: nat): (r: Option<(Decimal, nat)>)
    ensures r.Some? ==>
      var (d, e) := r.value;
      && WellFormed(d) && i < e <= |s|
      && s[i..e] == d.intDigits + "." + d.fracDigits
      && (e == |s| || !IsDigit(s[e]))
    ensures r.None? && i < |s| && IsDigit(s[i]) ==>
      var j := i + DigitRun(s, i);
      j == |s| || s[j] != '.' || j + 1 == |s| || !IsDigit(s[j + 1])
  {
    if i > |s| then None
    else
      var n := DigitRun(s, i);
      var j := i + n;
      if n == 0 || j == |s| || s[j] != '.' then None
      else
        var m := DigitRun(s, j + 1);
        if m == 0 then None
        else
          var e := j + 1 + m;
          assert s[i..e] == s[i..j] + "." + s[j + 1..e];
          Some((Decimal(s[i..j], s[j + 1..e]), e))
  }

  const CpuMarker := "TOTAL CPU EXECUTION TIME: "
  const GpuMarker := "TOTAL GPU EXECUTION TIME: "

  /** A match of `TOTAL (?:CPU|GPU) EXECUTION TIME: (\d+\.\d+)` starting at `p`. */
  function CanonicalAt(s: string, p: nat): (r: Option<Decimal>)
    ensures r.Some? ==>
      (OccursAt(s, CpuMarker, p) || OccursAt(s, GpuMarker, p))
      && NumberAt(s, p + |CpuMarker|).Some? && r.value == NumberAt(s, p + |CpuMarker|).value.0
    ensures (OccursAt(s, CpuMarker, p) || OccursAt(s, GpuMarker, p)) && NumberAt(s, p + |CpuMarker|).Some? ==> r.Some?
  {
    if OccursAt(s, CpuMarker, p) || OccursAt(s, GpuMarker, p) then
      match NumberAt(s, p + |CpuMarker|)
      case Some((d, _)) => Some(d)
      case None => None
    else None
  }

  /** A match of `(\d+\.\d+)\s*seconds` starting at `p`. */
  function SecondsAt(s: string, p: nat): (r: Option<Decimal>)
    ensures r.Some? ==>
      && NumberAt(s, p).Some? && r.value == NumberAt(s, p).value.0
      && OccursAt(s, "seconds", SkipSpaces(s, NumberAt(s, p).value.1))
    ensures NumberAt(s, p).Some? && OccursAt(s, "seconds", SkipSpaces(s, NumberAt(s, p).value.1)) ==> r.Some?
  {
    match NumberAt(s, p)
    case None => None
    case Some((d, e)) => if OccursAt(s, "seconds", SkipSpaces(s, e)) then Some(d) else None
  }

  /** Python's `re.search`: the leftmost position at or after `k` where `matcher` matches. */
  function FirstMatch(s: string, matcher: (string, nat) -> Option<Decimal>, k: nat): (r: Option<nat>)
    decreases |s| + 1 - k
    ensures r.Some? ==> k <= r.value <= |s| && matcher(s, r.value).Some?
    ensures r.Some? ==> forall q: nat :: k <= q < r.value ==> matcher(s, q).None?
    ensures r.None? ==> forall q: nat :: k <= q <= |s| ==> matcher(s, q).None?
  {
    if k > |s| then None
    else if matcher(s, k).Some? then Some(k)
    else FirstMatch(s, matcher, k + 1)
  }

  /** `_extract_execution_time`: the measured time, the sentinel, or nothing. */
  function ExtractExecutionTime(output: string): (r: Option<Decimal>)
    ensures output == "" ==> r.None?
    ensures r.Some? ==> WellFormed(r.value)
  {
    if output == "" then None
    else match FirstMatch(output, CanonicalAt, 0)
      case Some(p) => CanonicalAt(output, p)
      case None =>
        match FirstMatch(output, SecondsAt, 0)
        case Some(p) => SecondsAt(output, p)
        case None => if Contains(output, "EXECUTION") then Some(Sentinel) else None
  }

  /** A canonical marker anywhere wins: the result is the leftmost canonical match. */
  lemma CanonicalWins(output: string, p: nat)
    requires CanonicalAt(output, p).Some?
    ensures exists q: nat ::
              && q <= p && ExtractExecutionTime(output) == CanonicalAt(output, q)
              && forall q': nat :: q' < q ==> CanonicalAt(output, q').None?
  {
    assert output != "" by {
      assert OccursAt(output, CpuMarker, p) || OccursAt(output, GpuMarker, p);
    }
    assert p <= |output| by {
      assert OccursAt(output, CpuMarker, p) || OccursAt(output, GpuMarker, p);
    }
    var q := FirstMatch(output, CanonicalAt, 0).value;
    assert ExtractExecutionTime(output) == CanonicalAt(output, q);
  }

  /** Without any canonical marker, the result is the leftmost "<number> seconds". */
  lemma SecondsFallback(output: string, p: nat)
    requires forall q: nat :: CanonicalAt(output, q).None?
    requires SecondsAt(output, p).Some?
    ensures exists q: nat ::
              && q <= p && ExtractExecutionTime(output) == SecondsAt(output, q)
              && forall q': nat :: q' < q ==> SecondsAt(output, q').None?
  {
    assert output != "" && p <= |output| by {
      assert NumberAt(output, p).Some?;
    }
    assert FirstMatch(output, CanonicalAt, 0).None?;
    var q := FirstMatch(output, SecondsAt, 0).value;
    assert ExtractExecutionTime(output) == SecondsAt(output, q);
  }

  /**
   * With neither pattern matching, the sentinel comes back exactly when the text
   * mentions EXECUTION, and nothing otherwise. Nothing comes back only then.
   */
  lemma SentinelOnlyWhenUnmatched(output: string)
    ensures (forall q: nat :: CanonicalAt(output, q).None?) && (forall q: nat :: SecondsAt(output, q).None?) ==>
      ExtractExecutionTime(output) == (if Contains(output, "EXECUTION") then Some(Sentinel) else None)
    ensures ExtractExecutionTime(output).None? <==>
      (forall q: nat :: CanonicalAt(output, q).None?) && (forall q: nat :: SecondsAt(output, q).None?)
      && !Contains(output, "EXECUTION")
  {
    if output == "" {
      forall q: nat ensures CanonicalAt(output, q).None? && SecondsAt(output, q).None? {
        assert NumberAt(output, q).None?;
      }
    } else {
      var c := FirstMatch(output, CanonicalAt, 0);
      var s := FirstMatch(output, SecondsAt, 0);
      if c.None? {
        forall q: nat ensures CanonicalAt(output, q).None? {
          if q > |output| {
            assert !OccursAt(output, CpuMarker, q) && !OccursAt(output, GpuMarker, q);
          }
        }
        if s.None? {
          forall q: nat ensures SecondsAt(output, q).None? {
            if q > |output| {
              assert NumberAt(output, q).None?;
            }
          }
        }
      }
    }
  }

  /** "TOTAL CPU EXECUTION TIME: 1.234000 seconds (averaged over 5 runs)" */
  const ExampleLine := CpuMarker + "1.234000" + " seconds (averaged over 5 runs)"

  lemma ExampleNumber()
    ensures NumberAt(ExampleLine, |CpuMarker|) == Some((Decimal("1", "234000"), 34))
  {
    var s := ExampleLine;
    assert IsDigit(s[26]) && !IsDigit(s[27]) && s[27] == '.';
    assert DigitRun(s, 27) == 0;
    assert DigitRun(s, 26) == 1;
    assert !IsDigit(s[34]);
    assert DigitRun(s, 34) == 0;
    assert forall k :: 28 <= k < 34 ==> IsDigit(s[k]);
    assert DigitRun(s, 28) == 6;
    var n := "1.234000";
    assert s[26..34] == n;
    assert s[26..27] == n[0..1] && s[28..34] == n[2..8];
    assert n[0..1] == "1" && n[2..8] == "234000";
    assert NumberAt(s, 26) == Some((Decimal(s[26..27], s[28..34]), 34));
  }

  /** The benchmark's own line format yields the time it states. */
  lemma CanonicalExample()
    ensures ExtractExecutionTime(ExampleLine) == Some(Decimal("1", "234000"))
  {
    var s := ExampleLine;
    assert s[..|CpuMarker|] == CpuMarker;
    assert OccursAt(s, CpuMarker, 0);
    ExampleNumber();
    assert CanonicalAt(s, 0) == Some(Decimal("1", "234000"));
    assert FirstMatch(s, CanonicalAt, 0) == Some(0);
  }

  /** The time `run_code_comparison` reports: a missing or zero time becomes 0.001. */
  function TimeOrSentinel(t: Option<Decimal>): (d: Decimal)
    ensures !IsZero(d)
    ensures t.Some? && !IsZero(t.value) ==> d == t.value
    ensures t.None? || IsZero(t.value) ==> d == Sentinel
  {
    if t.Some? && !IsZero(t.value) then t.value
    else
      assert Sentinel.fracDigits[2] != '0';
      Sentinel
  }
}

/**
 * String helpers with the meaning Python gives them on `str` values: substring
 * search (`in`, `find`), `split` on one character, `join`, `strip`, `startswith`,
 * and the selection of a sub-list by a mask, which is what a filtering loop that
 * appends in order produces.
 */
module Text {

  datatype Option<T> = None | Some(value: T)

  /** The outcome of calling a collaborator that may raise: its value, or the text of the exception. */
  datatype Outcome<T> = Returned(value: T) | Raised(message: string)

  /** `t` occurs in `s` starting at index `i`. */
  predicate OccursAt(s: string, t: string, i: nat)
  {
    i + |t| <= |s| && s[i..i + |t|] == t
  }

  /** An occurrence of `l` at `p` and of `r` at `q`, not overlapping, enclose the text between them. */
  lemma Enclosed(s: string, l: string, p: nat, r: string, q: nat)
    requires OccursAt(s, l, p) && OccursAt(s, r, q) && p + |l| <= q
    ensures OccursAt(s, l + s[p + |l|..q] + r, p)
  {
    assert s[p..q + |r|] == s[p..p + |l|] + s[p + |l|..q] + s[q..q + |r|];
  }

  /** Python's `t in s`. */
  predicate Contains(s: string, t: string)
  {
    exists i :: 0 <= i <= |s| && OccursAt(s, t, i)
  }

  /** Python's `s.find(t, k)`: the first occurrence of `t` at or after `k`, if any. */
  function IndexFrom(s: string, t: string, k: nat): (r: Option<nat>)
    decreases |s| - k
    ensures r.Some? ==> k <= r.value && OccursAt(s, t, r.value)
    ensures r.Some? ==> forall j: nat :: k <= j < r.value ==> !OccursAt(s, t, j)
    ensures r.None? ==> forall j: nat :: k <= j ==> !OccursAt(s, t, j)
  {
    if k + |t| > |s| then None
    else if s[k..k + |t|] == t then Some(k)
    else IndexFrom(s, t, k + 1)
  }

  /** Python's `s.find(t)`, with `None` for -1. */
  function IndexOf(s: string, t: string): (r: Option<nat>)
    ensures r.Some? <==> Contains(s, t)
    ensures r.Some? ==> OccursAt(s, t, r.value) && forall j: nat :: j < r.value ==> !OccursAt(s, t, j)
  {
    IndexFrom(s, t, 0)
  }

  /** An occurrence at a known index is witness enough for `Contains`. */
  lemma OccursContains(s: string, t: string, i: nat)
    requires OccursAt(s, t, i)
    ensures Contains(s, t)
  {
    assert 0 <= i <= |s| && OccursAt(s, t, i);
  }

  /** `x` occurs in `a + x + b`, at index `|a|`. */
  lemma ContainsInfix(a: string, x: string, b: string)
    ensures OccursAt(a + x + b, x, |a|) && Contains(a + x + b, x)
  {
    assert (a + x + b)[|a|..|a| + |x|] == x;
    OccursContains(a + x + b, x, |a|);
  }

  /** Occurrences in a suffix are occurrences in the whole text, shifted. */
  lemma SuffixOccurs(s: string, a: nat, t: string, j: nat)
    requires a <= |s|
    ensures OccursAt(s[a..], t, j) <==> OccursAt(s, t, a + j)
  {
    if a + j + |t| <= |s| {
      assert s[a..][j..j + |t|] == s[a + j..a + j + |t|];
    }
  }

  /** Occurrences in a prefix are occurrences in the whole text. */
  lemma PrefixOccurs(s: string, b: nat, t: string, j: nat)
    requires b <= |s|
    ensures OccursAt(s[..b], t, j) <==> (OccursAt(s, t, j) && j + |t| <= b)
  {
    if j + |t| <= b {
      assert s[..b][j..j + |t|] == s[j..j + |t|];
    }
  }

  /**
   * When `t` does not occur in `a` followed by all but the last character of `t`,
   * its first occurrence in `a + t + b` is the one right after `a`.
   */
  lemma FirstOccurrence(a: string, t: string, b: string)
    requires |t| > 0 && !Contains(a + t[..|t| - 1], t)
    ensures IndexOf(a + t + b, t) == Some(|a|)
  {
    var s := a + t + b;
    ContainsInfix(a, t, b);
    forall j: nat | j < |a|
      ensures !OccursAt(s, t, j)
    {
      if OccursAt(s, t, j) {
        assert s[..|a| + |t| - 1] == a + t[..|t| - 1];
        PrefixOccurs(s, |a| + |t| - 1, t, j);
        OccursContains(a + t[..|t| - 1], t, j);
      }
    }
  }

  /** Searching `s` from `k + j` is searching the suffix from `k` at `j`, shifted by `k`. */
  lemma {:induction false} IndexFromSuffix(s: string, t: string, k: nat, j: nat)
    requires k <= |s|
    ensures IndexFrom(s[k..], t, j).None? <==> IndexFrom(s, t, k + j).None?
    ensures IndexFrom(s[k..], t, j).Some? ==> IndexFrom(s, t, k + j).value == k + IndexFrom(s[k..], t, j).value
    decreases |s| - k - j
  {
    if k + j + |t| <= |s| {
      assert s[k..][j..j + |t|] == s[k + j..k + j + |t|];
      if s[k + j..k + j + |t|] != t {
        IndexFromSuffix(s, t, k, j + 1);
      }
    }
  }

  /** Where the text from `k` on is `a + t + b` and `a` holds no `t`, the search from `k` stops after `a`. */
  lemma FirstOccurrenceFrom(s: string, k: nat, a: string, t: string, b: string)
    requires k <= |s| && s[k..] == a + t + b
    requires |t| > 0 && !Contains(a + t[..|t| - 1], t)
    ensures IndexFrom(s, t, k) == Some(k + |a|)
    ensures s[k..k + |a|] == a
  {
    FirstOccurrence(a, t, b);
    IndexFromSuffix(s, t, k, 0);
    assert s[k..k + |a|] == s[k..][..|a|];
  }

  /** Python's `s.startswith(t)`. */
  predicate StartsWith(s: string, t: string)
  {
    |t| <= |s| && s[..|t|] == t
  }

  /** A prefix is contained. */
  lemma PrefixContained(s: string, t: string)
    requires StartsWith(s, t)
    ensures Contains(s, t)
  {
    assert OccursAt(s, t, 0);
    OccursContains(s, t, 0);
  }

  /** Python's `str.isspace` on one character. */
  predicate IsSpace(c: char)
  {
    c == ' ' || ('\t' <= c <= '\r') || ('\U{1C}' <= c <= '\U{1F}') || c == '\U{85}' || c == '\U{A0}'
    || c == '\U{1680}' || ('\U{2000}' <= c <= '\U{200A}') || c == '\U{2028}' || c == '\U{2029}'
    || c == '\U{202F}' || c == '\U{205F}' || c == '\U{3000}'
  }

  /** Index of the first non-whitespace character at or after `i`. */
  function SkipSpaces(s: string, i: nat): (r: nat)
    requires i <= |s|
    decreases |s| - i
    ensures i <= r <= |s|
    ensures forall k :: i <= k < r ==> IsSpace(s[k])
    ensures r < |s| ==> !IsSpace(s[r])
  {
    if i < |s| && IsSpace(s[i]) then SkipSpaces(s, i + 1) else i
  }

  /** One past the last non-whitespace character before `j`, not going below `lo`. */
  function BackSpaces(s: string, lo: nat, j: nat): (r: nat)
    requires lo <= j <= |s|
    decreases j
    ensures lo <= r <= j
    ensures forall k :: r <= k < j ==> IsSpace(s[k])
    ensures r > lo ==> !IsSpace(s[r - 1])
  {
    if j > lo && IsSpace(s[j - 1]) then BackSpaces(s, lo, j - 1) else j
  }

  /** Python's `s.strip()`: the slice left once leading and trailing whitespace is removed. */
  function Strip(s: string): (r: string)
    ensures exists a: nat, b: nat ::
              && a <= b <= |s| && r == s[a..b]
              && (forall k :: 0 <= k < a ==> IsSpace(s[k]))
              && (forall k :: b <= k < |s| ==> IsSpace(s[k]))
    ensures r != [] ==> !IsSpace(r[0]) && !IsSpace(r[|r| - 1])
    ensures (forall k :: 0 <= k < |s| ==> IsSpace(s[k])) <==> r == []
  {
    var a := SkipSpaces(s, 0);
    var b := BackSpaces(s, a, |s|);
    s[a..b]
  }

  /** Python's `s.split(c)` for a one-character separator. */
  function Split(s: string, c: char): (r: seq<string>)
    decreases |s|
    ensures |r| >= 1
    ensures forall i :: 0 <= i < |r| ==> c !in r[i]
  {
    if |s| == 0 then [""]
    else
      var rest := Split(s[1..], c);
      if s[0] == c then [""] + rest
      else [[s[0]] + rest[0]] + rest[1..]
  }

  /** Python's `sep.join(parts)`. */
  function Join(sep: string, parts: seq<string>): string
    decreases |parts|
  {
    if |parts| == 0 then ""
    else if |parts| == 1 then parts[0]
    else parts[0] + sep + Join(sep, parts[1..])
  }

  /** Joining the pieces of a split with the separator gives back the original text. */
  lemma {:induction false} JoinSplit(s: string, c: char)
    ensures Join([c], Split(s, c)) == s
    decreases |s|
  {
    if |s| > 0 {
      var rest := Split(s[1..], c);
      JoinSplit(s[1..], c);
      if s[0] == c {
        assert Split(s, c) == [""] + rest;
        assert s == [c] + s[1..];
      } else {
        if |rest| == 1 {
          assert Join([c], Split(s, c)) == [s[0]] + rest[0];
        } else {
          assert Join([c], rest) == rest[0] + [c] + Join([c], rest[1..]);
          assert rest[1..][1..] == rest[2..];
        }
        assert s == [s[0]] + s[1..];
      }
    }
  }

  /** Python's `'\n'.join(...)` and `s.split('\n')`. */
  function JoinLines(parts: seq<string>): string
  {
    Join("\n", parts)
  }

  function Lines(s: string): seq<string>
  {
    Split(s, '\n')
  }

  /** The elements of `xs` whose mask bit is set, in their original order. */
  function Select<T>(xs: seq<T>, keep: seq<bool>): seq<T>
    requires |keep| == |xs|
    decreases |xs|
  {
    if |xs| == 0 then []
    else Select(xs[..|xs| - 1], keep[..|xs| - 1]) + (if keep[|xs| - 1] then [xs[|xs| - 1]] else [])
  }

  /** The indices at which the mask is set, in increasing order. */
  function Positions(keep: seq<bool>): (r: seq<nat>)
    decreases |keep|
    ensures forall k :: 0 <= k < |r| ==> r[k] < |keep| && keep[r[k]]
    ensures forall k, l :: 0 <= k < l < |r| ==> r[k] < r[l]
    ensures forall i :: 0 <= i < |keep| && keep[i] ==> i in r
  {
    if |keep| == 0 then []
    else
      var n := |keep| - 1;
      var init := Positions(keep[..n]);
      assert forall k :: 0 <= k < |init| ==> init[k] < n && keep[..n][init[k]];
      init + (if keep[n] then [n] else [])
  }

  /** A selection is exactly the elements at the positions where the mask holds, in order. */
  lemma {:induction false} SelectAtPositions<T>(xs: seq<T>, keep: seq<bool>)
    requires |keep| == |xs|
    ensures |Select(xs, keep)| == |Positions(keep)|
    ensures forall k :: 0 <= k < |Positions(keep)| ==> Select(xs, keep)[k] == xs[Positions(keep)[k]]
    decreases |xs|
  {
    if |xs| > 0 {
      var n := |xs| - 1;
      SelectAtPositions(xs[..n], keep[..n]);
    }
  }

  /** Extending the selection by one element, as a loop that appends does. */
  lemma SelectSnoc<T>(xs: seq<T>, keep: seq<bool>, i: nat)
    requires |keep| == |xs| && i < |xs|
    ensures Select(xs[..i + 1], keep[..i + 1])
         == Select(xs[..i], keep[..i]) + (if keep[i] then [xs[i]] else [])
  {
    assert xs[..i + 1][..i] == xs[..i];
    assert keep[..i + 1][..i] == keep[..i];
  }

  /** A mask that keeps nothing selects nothing. */
  lemma {:induction false} SelectNone<T>(xs: seq<T>, keep: seq<bool>)
    requires |keep| == |xs| && forall i :: 0 <= i < |keep| ==> !keep[i]
    ensures Select(xs, keep) == []
    decreases |xs|
  {
    if |xs| > 0 {
      SelectNone(xs[..|xs| - 1], keep[..|xs| - 1]);
    }
  }

  /** Every selected element is an element whose mask bit is set. */
  lemma SelectedAreKept<T>(xs: seq<T>, keep: seq<bool>, k: nat)
    requires |keep| == |xs| && k < |Select(xs, keep)|
    ensures exists i :: 0 <= i < |xs| && keep[i] && Select(xs, keep)[k] == xs[i]
  {
    SelectAtPositions(xs, keep);
    var i := Positions(keep)[k];
    assert keep[i] && Select(xs, keep)[k] == xs[i];
  }
}

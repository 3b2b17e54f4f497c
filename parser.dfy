/**
 * The response parser of `_parse_llm_response`: it splits a model reply into the
 * analysis text and the optimized code. It cuts on the optimized-code header,
 * takes the first python-fenced block of that section, and moves an insights
 * tail into the analysis. When there is no block, it falls back to a line scan
 * that toggles an in-code flag at every fence line.
 */
module ResponseParser {
  import opened Text

  datatype ParsedResponse = ParsedResponse(analysis: string, optimizedCode: string)

  const CodeHeader := "## 🚀 GPU-Optimized Code"
  const InsightsHeader := "## 💡 Optimization Insights"
  /** The heading the insights tail is appended under, blank line first. */
  const InsightsHeading := "\n\n" + InsightsHeader + "\n"
  const BlockOpen := "```python\n"
  const BlockClose := "\n```"

  /**
   * Python's `text.split(sep)[1]` for a text that contains `sep`: what lies
   * between the first occurrence of `sep` and the next one, or the end.
   */
  function SecondPiece(text: string, sep: string): (r: string)
    requires IndexOf(text, sep).Some?
    ensures var start := IndexOf(text, sep).value + |sep|;
            && start + |r| <= |text| && r == text[start..start + |r|]
            && (start + |r| == |text| || OccursAt(text, sep, start + |r|))
            && forall j: nat :: start <= j < start + |r| ==> !OccursAt(text, sep, j)
  {
    var start := IndexOf(text, sep).value + |sep|;
    match IndexFrom(text, sep, start)
    case None => text[start..]
    case Some(e) => text[start..e]
  }

  /**
   * The first match of the regular expression ```` ```python\n(.*?)\n``` ```` (dot
   * matching newlines) in `section`: the text from the first opening fence to the
   * nearest closing fence after it.
   */
  function FirstPythonBlock(section: string): (r: Option<string>)
    ensures r.Some? ==>
      && IndexOf(section, BlockOpen).Some?
      && var p := IndexOf(section, BlockOpen).value;
      && OccursAt(section, BlockOpen + r.value + BlockClose, p)
      && forall j: nat :: p + |BlockOpen| <= j < p + |BlockOpen| + |r.value| ==> !OccursAt(section, BlockClose, j)
  {
    match IndexOf(section, BlockOpen)
    case None => None
    case Some(p) =>
      match IndexFrom(section, BlockClose, p + |BlockOpen|)
      case None => None
      case Some(q) =>
        var body := section[p + |BlockOpen|..q];
        Enclosed(section, BlockOpen, p, BlockClose, q);
        Some(body)
  }

  /**
   * When there is no first block, the regular expression has no match at all:
   * no opening fence anywhere is followed by a closing fence.
   */
  lemma NoBlockMeansNoMatch(section: string, p: nat, q: nat)
    requires FirstPythonBlock(section).None?
    requires OccursAt(section, BlockOpen, p) && p + |BlockOpen| <= q
    ensures !OccursAt(section, BlockClose, q)
  {
    OccursContains(section, BlockOpen, p);
    var p0 := IndexOf(section, BlockOpen).value;
    assert p0 <= p;
    assert IndexFrom(section, BlockClose, p0 + |BlockOpen|).None?;
  }

  // The fallback line scan.

  /** A line that opens or closes a fence: it starts with three backticks once stripped. */
  predicate IsFence(line: string)
  {
    StartsWith(Strip(line), "```")
  }

  /** Outside a fence, the heuristic for a line of code. */
  predicate LooksLikeCode(line: string)
  {
    && Strip(line) != ""
    && !StartsWith(line, "#")
    && (Contains(line, "import") || Contains(line, "=") || Contains(line, "def"))
  }

  /** The in-code flag after scanning `lines`: it flips at every fence line. */
  function InCodeAfter(lines: seq<string>): bool
    decreases |lines|
  {
    if |lines| == 0 then false
    else InCodeAfter(lines[..|lines| - 1]) != IsFence(lines[|lines| - 1])
  }

  /** Whether the scan emits line `i`. */
  predicate Kept(lines: seq<string>, i: nat)
    requires i < |lines|
  {
    !IsFence(lines[i]) && (InCodeAfter(lines[..i]) || LooksLikeCode(lines[i]))
  }

  function KeepMask(lines: seq<string>): (m: seq<bool>)
    ensures |m| == |lines| && forall i :: 0 <= i < |lines| ==> m[i] == Kept(lines, i)
  {
    seq(|lines|, i requires 0 <= i < |lines| => Kept(lines, i))
  }

  /** The lines the scan emits, in order. */
  function FallbackLines(lines: seq<string>): seq<string>
  {
    Select(lines, KeepMask(lines))
  }

  /** The line scan of `_parse_llm_response`, which appends as it goes. */
  method ExtractFallbackLines(lines: seq<string>) returns (codeLines: seq<string>)
    ensures codeLines == FallbackLines(lines)
  {
    codeLines := [];
    var inCode := false;
    var i := 0;
    while i < |lines|
      invariant 0 <= i <= |lines|
      invariant inCode == InCodeAfter(lines[..i])
      invariant codeLines == Select(lines[..i], KeepMask(lines)[..i])
    {
      var line := lines[i];
      SelectSnoc(lines, KeepMask(lines), i);
      InCodeAfterSnoc(lines, i);
      if IsFence(line) {
        inCode := !inCode;
      } else if inCode || LooksLikeCode(line) {
        codeLines := codeLines + [line];
      }
      i := i + 1;
    }
    assert lines[..i] == lines && KeepMask(lines)[..i] == KeepMask(lines);
  }

  /**
   * The analysis with the insights tail of the section appended under its own
   * header, when the section has one; the analysis unchanged otherwise.
   */
  function WithInsights(analysis: string, section: string): (r: string)
    ensures StartsWith(r, analysis)
    ensures Contains(section, InsightsHeader) <==> |r| > |analysis|
    ensures !Contains(section, InsightsHeader) ==> r == analysis
    ensures Contains(section, InsightsHeader) ==>
      var insights := Strip(SecondPiece(section, InsightsHeader));
      && |r| == |analysis| + |InsightsHeading| + |insights|
      && r[|analysis|..|analysis| + |InsightsHeading|] == InsightsHeading
      && r[|r| - |insights|..] == insights
  {
    if Contains(section, InsightsHeader) then
      var insights := Strip(SecondPiece(section, InsightsHeader));
      var tail := InsightsHeading + insights;
      assert (analysis + tail)[..|analysis|] == analysis;
      assert (analysis + tail)[|analysis|..|analysis| + |InsightsHeading|] == InsightsHeading;
      assert (analysis + tail)[|analysis + tail| - |insights|..] == insights;
      analysis + tail
    else analysis
  }

  /** The reply split into analysis and code. */
  function Parse(response: string): (r: ParsedResponse)
    ensures !Contains(response, CodeHeader) ==> r == ParsedResponse(response, "")
  {
    match IndexOf(response, CodeHeader)
    case None => ParsedResponse(response, "")
    case Some(i) =>
      var analysis := Strip(response[..i]);
      var section := SecondPiece(response, CodeHeader);
      match FirstPythonBlock(section)
      case Some(block) =>
        ParsedResponse(WithInsights(analysis, section), Strip(block))
      case None =>
        ParsedResponse(analysis, Strip(JoinLines(FallbackLines(Lines(section)))))
  }

  /** With the code header present, the analysis starts with the stripped text before its first occurrence. */
  lemma AnalysisKeepsPreamble(response: string)
    requires Contains(response, CodeHeader)
    ensures StartsWith(Parse(response).analysis, Strip(response[..IndexOf(response, CodeHeader).value]))
  {
    var analysis := Strip(response[..IndexOf(response, CodeHeader).value]);
    assert analysis[..|analysis|] == analysis;
  }

  /** `_parse_llm_response`, running the fallback scan as a loop. */
  method ParseLlmResponse(response: string) returns (analysis: string, optimizedCode: string)
    ensures ParsedResponse(analysis, optimizedCode) == Parse(response)
  {
    var found := IndexOf(response, CodeHeader);
    if found.None? {
      return response, "";
    }
    analysis := Strip(response[..found.value]);
    var section := SecondPiece(response, CodeHeader);
    var block := FirstPythonBlock(section);
    if block.Some? {
      optimizedCode := Strip(block.value);
      if Contains(section, InsightsHeader) {
        var insights := Strip(SecondPiece(section, InsightsHeader));
        analysis := analysis + (InsightsHeading + insights);
      }
    } else {
      var codeLines := ExtractFallbackLines(Lines(section));
      optimizedCode := Strip(JoinLines(codeLines));
    }
  }

  /** The section `Parse` looks for a code block in: after the first header, up to the second. */
  function CodeSection(response: string): string
    requires Contains(response, CodeHeader)
  {
    SecondPiece(response, CodeHeader)
  }

  /**
   * When the section holds a python block, the code is that block trimmed, and the
   * insights tail joins the analysis exactly when its header is in the section.
   */
  lemma ParseTakesFirstBlock(response: string)
    requires Contains(response, CodeHeader)
    requires FirstPythonBlock(CodeSection(response)).Some?
    ensures Parse(response).optimizedCode == Strip(FirstPythonBlock(CodeSection(response)).value)
    ensures var before := Strip(response[..IndexOf(response, CodeHeader).value]);
            Contains(CodeSection(response), InsightsHeader) <==> |Parse(response).analysis| > |before|
  {
  }

  /** Without a python block, the code comes from the line scan of the section. */
  lemma ParseFallsBackToScan(response: string)
    requires Contains(response, CodeHeader)
    requires FirstPythonBlock(CodeSection(response)).None?
    ensures Parse(response)
         == ParsedResponse(Strip(response[..IndexOf(response, CodeHeader).value]),
                           Strip(JoinLines(FallbackLines(Lines(CodeSection(response))))))
  {
  }

  /** The block is read off the first opening fence and the first closing fence after it. */
  lemma BlockBetweenFences(s: string, p: nat, x: string)
    requires IndexOf(s, BlockOpen) == Some(p)
    requires IndexFrom(s, BlockClose, p + |BlockOpen|) == Some(p + |BlockOpen| + |x|)
    requires s[p + |BlockOpen|..p + |BlockOpen| + |x|] == x
    ensures FirstPythonBlock(s) == Some(x)
  {
  }

  /** A section made of text, one python block, and more text yields that block. */
  lemma BlockOfWellFormedSection(b: string, x: string, c: string)
    requires !Contains(b + BlockOpen[..|BlockOpen| - 1], BlockOpen)
    requires !Contains(x + BlockClose[..|BlockClose| - 1], BlockClose)
    ensures FirstPythonBlock(b + BlockOpen + x + BlockClose + c) == Some(x)
  {
    var s := b + BlockOpen + x + BlockClose + c;
    FirstOccurrence(b, BlockOpen, x + BlockClose + c);
    assert b + BlockOpen + (x + BlockClose + c) == s;
    var start := |b| + |BlockOpen|;
    assert s[start..] == x + BlockClose + c;
    FirstOccurrenceFrom(s, start, x, BlockClose, c);
    BlockBetweenFences(s, |b|, x);
  }

  /** After a first header that the text before it does not contain, and with no second header, the section is the rest. */
  lemma SectionAfterHeader(a: string, section: string)
    requires !Contains(a + CodeHeader[..|CodeHeader| - 1], CodeHeader)
    requires !Contains(section, CodeHeader)
    ensures IndexOf(a + CodeHeader + section, CodeHeader) == Some(|a|)
    ensures CodeSection(a + CodeHeader + section) == section
    ensures (a + CodeHeader + section)[..|a|] == a
  {
    var response := a + CodeHeader + section;
    FirstOccurrence(a, CodeHeader, section);
    assert response[..|a|] == a;
    var start := |a| + |CodeHeader|;
    assert response[start..] == section;
    forall j: nat | start <= j ensures !OccursAt(response, CodeHeader, j) {
      SuffixOccurs(response, start, CodeHeader, j - start);
      if j - start <= |section| {
        assert !OccursAt(section, CodeHeader, j - start);
      }
    }
    assert response[start..start + |section|] == section;
  }

  /**
   * A reply laid out as asked: text without the header, the header, then a section
   * without a second header holding text, one python block and more text. The
   * parsed code is the block trimmed, and the analysis starts with the text before
   * the header, trimmed.
   */
  lemma ParseWellFormedReply(a: string, b: string, x: string, c: string)
    requires !Contains(a + CodeHeader[..|CodeHeader| - 1], CodeHeader)
    requires !Contains(b + BlockOpen + x + BlockClose + c, CodeHeader)
    requires !Contains(b + BlockOpen[..|BlockOpen| - 1], BlockOpen)
    requires !Contains(x + BlockClose[..|BlockClose| - 1], BlockClose)
    ensures Parse(a + CodeHeader + (b + BlockOpen + x + BlockClose + c)).optimizedCode == Strip(x)
    ensures StartsWith(Parse(a + CodeHeader + (b + BlockOpen + x + BlockClose + c)).analysis, Strip(a))
  {
    var section := b + BlockOpen + x + BlockClose + c;
    var response := a + CodeHeader + section;
    SectionAfterHeader(a, section);
    BlockOfWellFormedSection(b, x, c);
    AnalysisKeepsPreamble(response);
  }

  /** The scan never emits a fence line. */
  lemma FallbackDropsFences(lines: seq<string>)
    ensures forall k :: 0 <= k < |FallbackLines(lines)| ==> !IsFence(FallbackLines(lines)[k])
  {
    forall k | 0 <= k < |FallbackLines(lines)| ensures !IsFence(FallbackLines(lines)[k]) {
      SelectedAreKept(lines, KeepMask(lines), k);
    }
  }

  /**
   * The scan emits exactly the lines at the kept positions, in their original
   * order: the k-th emitted line is the line at the k-th kept index.
   */
  lemma FallbackKeepsOrder(lines: seq<string>)
    ensures var pos := Positions(KeepMask(lines));
            && |FallbackLines(lines)| == |pos|
            && (forall k :: 0 <= k < |pos| ==> FallbackLines(lines)[k] == lines[pos[k]])
            && (forall k, l :: 0 <= k < l < |pos| ==> pos[k] < pos[l])
            && (forall i :: 0 <= i < |lines| ==> (i in pos <==> Kept(lines, i)))
  {
    SelectAtPositions(lines, KeepMask(lines));
  }

  /** Outside a fence, a line is emitted only if it looks like code. */
  lemma FallbackOutsideFence(lines: seq<string>, i: nat)
    requires i < |lines| && !InCodeAfter(lines[..i])
    ensures Kept(lines, i) <==> !IsFence(lines[i]) && LooksLikeCode(lines[i])
  {
  }

  /** One more line flips the flag exactly when it is a fence line. */
  lemma InCodeAfterSnoc(lines: seq<string>, k: nat)
    requires k < |lines|
    ensures InCodeAfter(lines[..k + 1]) == (InCodeAfter(lines[..k]) != IsFence(lines[k]))
  {
    assert lines[..k + 1][..k] == lines[..k];
  }

  /** After an opening fence, the flag stays set up to the next fence line. */
  lemma {:induction false} InCodeUntilNextFence(lines: seq<string>, i: nat, j: nat)
    requires i < j <= |lines|
    requires IsFence(lines[i]) && !InCodeAfter(lines[..i])
    requires forall m :: i < m < j ==> !IsFence(lines[m])
    ensures InCodeAfter(lines[..j])
    decreases j - i
  {
    if j == i + 1 {
      InCodeAfterSnoc(lines, i);
    } else {
      InCodeUntilNextFence(lines, i, j - 1);
      InCodeAfterSnoc(lines, j - 1);
    }
  }

  /** Every line between an opening fence and the next fence line is emitted. */
  lemma FallbackKeepsFencedLines(lines: seq<string>, i: nat, j: nat)
    requires i < j < |lines|
    requires IsFence(lines[i]) && !InCodeAfter(lines[..i])
    requires forall m :: i < m <= j ==> !IsFence(lines[m])
    ensures Kept(lines, j) && j in Positions(KeepMask(lines))
  {
    InCodeUntilNextFence(lines, i, j);
  }
}

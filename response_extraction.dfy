/**
 * The text selection every provider client applies to a raw model answer
 * before handing it to an agent: drop a `<think>` block, keep text that
 * already starts as JSON, otherwise cut out the first-`{`-to-last-`}` span
 * when it mentions one of the agent keys, else leave the answer alone.
 */
module ResponseExtraction {
  import opened Text
  import opened Wrappers

  /** `r` is a contiguous piece of `s`. */
  ghost predicate IsInfix(r: String, s: String) {
    exists i :: OccursAt(s, r, i)
  }

  lemma {:induction false} InfixContains(r: String, s: String, sub: String)
    requires IsInfix(r, s) && Contains(r, sub)
    ensures Contains(s, sub)
  {
    var i :| OccursAt(s, r, i);
    var j := Find(r, sub);
    SliceOfSlice(s, i, i + |r|, j, j + |sub|);
    assert OccursAt(s, sub, i + j);
  }

  lemma StripInfix(s: String)
    ensures IsInfix(Strip(s), s)
  {
    var t := RStrip(s);
    var r := LStrip(t);
    assert r == s[|t| - |r|..|t|];
    assert OccursAt(s, r, |t| - |r|);
  }

  lemma InfixTrans(a: String, b: String, c: String)
    requires IsInfix(a, b) && IsInfix(b, c)
    ensures IsInfix(a, c)
  {
    var i :| OccursAt(b, a, i);
    var j :| OccursAt(c, b, j);
    SliceOfSlice(c, j, j + |b|, i, i + |a|);
    assert OccursAt(c, a, i + j);
  }

  /** `s.split(sep)[-1]`: what follows the last occurrence of `sep` found scanning left to right. */
  function LastPart(s: String, sep: String): (r: String)
    requires |sep| > 0
    ensures |r| <= |s| && r == s[|s| - |r|..]
    ensures !Contains(r, sep)
    decreases |s|
  {
    var i := Find(s, sep);
    if i < 0 then s else LastPart(s[i + |sep|..], sep)
  }

  /** The key test of the direct JSON cut. */
  predicate HasAgentKey(span: String) {
    Contains(span, "\"score\"") || Contains(span, "\"analysis\"") || Contains(span, "\"suggestions\"")
  }

  /** The narrower key test of the regex fallback. */
  predicate HasFallbackKey(span: String) {
    Contains(span, "\"score\"") || Contains(span, "\"analysis\"")
  }

  /** The slice from the first `{` to the last `}`, when the last `}` comes after the first `{`. */
  function BraceSpan(content: String): (r: Option<String>)
    ensures r.Some? ==> |r.value| >= 2 && r.value[0] == '{' && r.value[|r.value| - 1] == '}'
    ensures r.Some? ==> IsInfix(r.value, content)
  {
    var start := Find(content, "{");
    var end := RFind(content, "}");
    if start != -1 && end > start then
      assert content[start] == content[start..start + 1][0];
      assert content[end] == content[end..end + 1][0];
      assert OccursAt(content, content[start..end + 1], start);
      Some(content[start..end + 1])
    else None
  }

  /**
   * `re.search(r'\{[\s\S]*\}', content)`: the leftmost `{` that has some `}`
   * after it, extended greedily to the last `}`.
   */
  function RegexBraceFrom(content: String, i: nat): Option<String>
    decreases |content| - i
  {
    if i >= |content| then None
    else
      var close := RFind(content[i + 1..], "}");
      if content[i] == '{' && close >= 0 then Some(content[i..i + 1 + close + 1])
      else RegexBraceFrom(content, i + 1)
  }

  function RegexBraceMatch(content: String): Option<String> {
    RegexBraceFrom(content, 0)
  }

  predicate HasThinkBlock(content: String) {
    Contains(content, "<think>") && Contains(content, "</think>")
  }

  predicate LooksLikeJson(content: String) {
    StartsWith(Strip(content), "{") || StartsWith(Strip(content), "[")
  }

  /** The selection rules in the order the clients apply them. */
  function Extract(content: String): String {
    if HasThinkBlock(content) then Strip(LastPart(content, "</think>"))
    else if LooksLikeJson(content) then content
    else
      var direct := BraceSpan(content);
      if direct.Some? && HasAgentKey(direct.value) then direct.value
      else
        var fallback := RegexBraceMatch(content);
        if fallback.Some? && HasFallbackKey(fallback.value) then fallback.value
        else content
  }

  lemma ShiftOccurs(c: String, sub: String, m: nat, j: int)
    requires m <= |c| && 0 <= j
    ensures OccursAt(c[m..], sub, j) <==> OccursAt(c, sub, j + m)
  {
    if j + |sub| <= |c| - m {
      assert c[m..][j..j + |sub|] == c[j + m..j + m + |sub|];
    }
  }

  /** `rfind` on a suffix sees exactly the occurrences of the whole text that lie in the suffix. */
  lemma RFindSuffix(c: String, sub: String, m: nat)
    requires m <= |c|
    ensures RFind(c[m..], sub) == if RFind(c, sub) >= m then RFind(c, sub) - m else -1
  {
    var r := RFind(c, sub);
    var r' := RFind(c[m..], sub);
    if r' != -1 {
      ShiftOccurs(c, sub, m, r');
      if r >= m {
        ShiftOccurs(c, sub, m, r - m);
      }
    } else if r >= m {
      ShiftOccurs(c, sub, m, r - m);
    }
  }

  lemma {:induction false} RegexSkipsNonBraces(c: String, i: nat, s: nat)
    requires i <= s <= |c|
    requires forall k :: i <= k < s ==> c[k] != '{'
    ensures RegexBraceFrom(c, i) == RegexBraceFrom(c, s)
    decreases s - i
  {
    if i < s {
      RegexSkipsNonBraces(c, i + 1, s);
    }
  }

  lemma {:induction false} RegexNoCloseAfter(c: String, i: nat)
    requires i <= |c|
    requires forall k :: i <= k < |c| && c[k] == '{' ==> RFind(c[k + 1..], "}") < 0
    ensures RegexBraceFrom(c, i) == None
    decreases |c| - i
  {
    if i < |c| {
      RegexNoCloseAfter(c, i + 1);
    }
  }

  lemma OpenAtFind(c: String)
    requires Find(c, "{") >= 0
    ensures c[Find(c, "{")] == '{'
    ensures forall k :: 0 <= k < Find(c, "{") ==> c[k] != '{'
  {
    var s := Find(c, "{");
    assert c[s..s + 1] == "{";
    forall k | 0 <= k < s ensures c[k] != '{' {
      if c[k] == '{' { assert c[k..k + 1] == "{"; assert OccursAt(c, "{", k); }
    }
  }

  lemma NoOpen(c: String)
    requires Find(c, "{") < 0
    ensures forall k :: 0 <= k < |c| ==> c[k] != '{'
  {
    forall k | 0 <= k < |c| ensures c[k] != '{' {
      if c[k] == '{' { assert c[k..k + 1] == "{"; assert OccursAt(c, "{", k); }
    }
  }

  /** The regex fallback finds exactly the span the direct first-`{`/last-`}` cut finds. */
  lemma RegexMatchesBraceSpan(c: String)
    ensures RegexBraceMatch(c) == BraceSpan(c)
  {
    var s := Find(c, "{");
    var e := RFind(c, "}");
    if s < 0 {
      NoOpen(c);
      RegexNoCloseAfter(c, 0);
    } else {
      OpenAtFind(c);
      RegexSkipsNonBraces(c, 0, s);
      RFindSuffix(c, "}", s + 1);
      if e > s {
        assert RFind(c[s + 1..], "}") == e - s - 1;
      } else {
        forall k | s <= k < |c| && c[k] == '{' ensures RFind(c[k + 1..], "}") < 0 {
          RFindSuffix(c, "}", k + 1);
        }
        RegexNoCloseAfter(c, s);
      }
    }
  }

  /**
   * The regex fallback never contributes: extraction yields the text after
   * the last `</think>`, the unchanged input, or the direct brace span.
   */
  lemma ExtractCases(c: String)
    ensures Extract(c) == (
      if HasThinkBlock(c) then Strip(LastPart(c, "</think>"))
      else if LooksLikeJson(c) then c
      else if BraceSpan(c).Some? && HasAgentKey(BraceSpan(c).value) then BraceSpan(c).value
      else c)
  {
    RegexMatchesBraceSpan(c);
  }

  /** Whatever rule applies, the extracted text is a contiguous piece of the input. */
  lemma ExtractIsInfix(c: String)
    ensures IsInfix(Extract(c), c)
  {
    if HasThinkBlock(c) {
      var p := LastPart(c, "</think>");
      StripInfix(p);
      assert OccursAt(c, p, |c| - |p|);
      InfixTrans(Strip(p), p, c);
    } else {
      ExtractCases(c);
      assert OccursAt(c, c, 0);
    }
  }

  /** Text that already starts as JSON and carries no think block passes a second extraction unchanged. */
  lemma SecondPassKeepsJson(r: String)
    requires LooksLikeJson(r) && !HasThinkBlock(r)
    ensures Extract(r) == r
  {
  }

  /**
   * Running the extraction twice, as the Gemini client does, changes nothing
   * unless the first pass removed a think block.
   */
  lemma ExtractTwice(c: String)
    requires !HasThinkBlock(c)
    ensures Extract(Extract(c)) == Extract(c)
  {
    ExtractCases(c);
    var r := Extract(c);
    if r != c {
      SpanPassesAgain(c, r);
      SecondPassKeepsJson(r);
    }
  }

  /** The brace span of text without a think block starts as JSON and has no think block either. */
  lemma SpanPassesAgain(c: String, r: String)
    requires !HasThinkBlock(c) && BraceSpan(c) == Some(r)
    ensures LooksLikeJson(r) && !HasThinkBlock(r)
  {
    BracedLooksLikeJson(r);
    InfixNoThink(r, c);
  }

  lemma BracedLooksLikeJson(r: String)
    requires |r| >= 2 && r[0] == '{' && r[|r| - 1] == '}'
    ensures LooksLikeJson(r)
  {
    assert !IsSpace(r[0]) && !IsSpace(r[|r| - 1]);
    NoEdgeSpaceStrip(r);
    assert r[..1] == "{";
  }

  lemma InfixNoThink(r: String, c: String)
    requires IsInfix(r, c) && !HasThinkBlock(c)
    ensures !HasThinkBlock(r)
  {
    if HasThinkBlock(r) {
      InfixContains(r, c, "<think>");
      InfixContains(r, c, "</think>");
    }
  }
}

/**
 * The markdown rewriting of `utils/markdown_renderer.py`: bold italic
 * written with three asterisks, then with three underscores, becomes inline
 * HTML.  Each pass is the substitution of one regular expression, scanned
 * left to right as Python's `re.sub` does.
 */
module MarkdownRendering {
  import opened Text

  function Triple(d: char): String {
    [d, d, d]
  }

  /** The inline HTML that replaces a bold italic text. */
  function Tagged(x: String): String {
    "<b><i>" + x + "</i></b>"
  }

  /** The first index at or after `i` holding `d`, or `|s|`. */
  function RunEnd(s: String, d: char, i: nat): (m: nat)
    requires i <= |s|
    ensures i <= m <= |s| && (m < |s| ==> s[m] == d)
    decreases |s| - i
  {
    if i == |s| || s[i] == d then i else RunEnd(s, d, i + 1)
  }

  /** Nothing before the end of the run is the delimiter. */
  lemma {:induction false} RunEndFirst(s: String, d: char, i: nat)
    requires i <= |s|
    ensures forall k :: i <= k < RunEnd(s, d, i) ==> s[k] != d
    decreases |s| - i
  {
    if i < |s| && s[i] != d {
      RunEndFirst(s, d, i + 1);
    }
  }

  /** Three delimiters start at `i`. */
  predicate TripleAt(s: String, d: char, i: nat) {
    i + 3 <= |s| && s[i] == d && s[i + 1] == d && s[i + 2] == d
  }

  /**
   * Where a match of `ddd([^d]+)ddd` that starts at `i` ends, or -1: three
   * delimiters, the longest run free of the delimiter (which must not be
   * empty), and three delimiters right after it.  A shorter run cannot
   * match, since the character after it is not the delimiter.
   */
  function MatchEnd(s: String, d: char, i: nat): (e: int)
    ensures e >= 0 ==> i + 7 <= e <= |s|
  {
    if TripleAt(s, d, i) then
      var m := RunEnd(s, d, i + 3);
      if m > i + 3 && TripleAt(s, d, m) then m + 3 else -1
    else -1
  }

  /** A match is delimited by three delimiters on each side and holds none inside. */
  lemma MatchEndFacts(s: String, d: char, i: nat)
    requires MatchEnd(s, d, i) >= 0
    ensures var e := MatchEnd(s, d, i);
      TripleAt(s, d, i) && TripleAt(s, d, e - 3) && d !in s[i + 3..e - 3]
  {
    var e := MatchEnd(s, d, i);
    RunEndFirst(s, d, i + 3);
    var t := s[i + 3..e - 3];
    forall k | 0 <= k < |t|
      ensures t[k] != d
    {
      assert t[k] == s[i + 3 + k];
    }
  }

  /** The regular expression's own reading: `s` holds `ddd x ddd` at `i`, with `x` not empty and free of `d`. */
  predicate MatchesAt(s: String, d: char, i: nat, x: String) {
    x != [] && d !in x && i + |x| + 6 <= |s| && s[i..i + |x| + 6] == Triple(d) + x + Triple(d)
  }

  /** The run ends at the first delimiter. */
  lemma {:induction false} RunEndAt(s: String, d: char, i: nat, m: nat)
    requires i <= m < |s| && s[m] == d
    requires forall k :: i <= k < m ==> s[k] != d
    ensures RunEnd(s, d, i) == m
    decreases m - i
  {
    if i < m {
      RunEndAt(s, d, i + 1, m);
    }
  }

  /** A match the regular expression sees is one the scanner finds, with the same group. */
  lemma MatchesAtFound(s: String, d: char, i: nat, x: String)
    requires MatchesAt(s, d, i, x)
    ensures MatchEnd(s, d, i) == i + |x| + 6 && s[i + 3..i + |x| + 3] == x
  {
    var n := |x|;
    var w := Triple(d) + x + Triple(d);
    assert forall j :: 0 <= j < n + 6 ==> s[i + j] == w[j] by {
      forall j | 0 <= j < n + 6
        ensures s[i + j] == w[j]
      {
        assert s[i..i + n + 6][j] == s[i + j];
      }
    }
    assert s[i] == w[0] && s[i + 1] == w[1] && s[i + 2] == w[2];
    assert s[i + n + 3] == w[n + 3] && s[i + n + 4] == w[n + 4] && s[i + n + 5] == w[n + 5];
    forall k | i + 3 <= k < i + n + 3
      ensures s[k] != d
    {
      assert s[k] == w[k - i] == x[k - i - 3];
    }
    RunEndAt(s, d, i + 3, i + n + 3);
    forall k | 0 <= k < n
      ensures s[i + 3..i + n + 3][k] == x[k]
    {
      assert s[i + 3 + k] == w[3 + k];
    }
  }

  /** A match the scanner finds is one the regular expression sees. */
  lemma FoundMatchesAt(s: String, d: char, i: nat)
    requires MatchEnd(s, d, i) >= 0
    ensures var e := MatchEnd(s, d, i); MatchesAt(s, d, i, s[i + 3..e - 3])
  {
    var e := MatchEnd(s, d, i);
    MatchEndFacts(s, d, i);
    var x := s[i + 3..e - 3];
    var w := Triple(d) + x + Triple(d);
    forall j | 0 <= j < |w|
      ensures s[i..e][j] == w[j]
    {
      if 3 <= j < |w| - 3 {
        assert w[j] == x[j - 3];
      }
    }
  }

  /** The scanner finds exactly the matches the regular expression describes, with their group. */
  lemma MatchEndIff(s: String, d: char, i: nat, x: String)
    ensures MatchesAt(s, d, i, x) <==> MatchEnd(s, d, i) == i + |x| + 6 && x == s[i + 3..i + |x| + 3]
  {
    if MatchesAt(s, d, i, x) {
      MatchesAtFound(s, d, i, x);
    }
    if MatchEnd(s, d, i) == i + |x| + 6 && x == s[i + 3..i + |x| + 3] {
      FoundMatchesAt(s, d, i);
    }
  }

  /**
   * One pass of `re.sub(r'ddd([^d]+)ddd', template, s)`, where `tag` gives
   * the template's text for the group: a match at the front is replaced and
   * the scan resumes after it; otherwise the first character is kept and the
   * scan resumes at the next one.
   */
  function Sub(s: String, d: char, tag: String -> String): String
    decreases |s|
  {
    if s == [] then []
    else
      var e := MatchEnd(s, d, 0);
      if e >= 0 then tag(s[3..e - 3]) + Sub(s[e..], d, tag)
      else [s[0]] + Sub(s[1..], d, tag)
  }

  /** `process_markdown_for_streamlit`: the asterisk pass, then the underscore pass, both with `<b><i>\1</i></b>`. */
  function ProcessMarkdown(content: String): String {
    Sub(Sub(content, '*', Tagged), '_', Tagged)
  }

  /** What `render_markdown_with_html` hands to Streamlit's `markdown`. */
  datatype MarkdownCall = MarkdownCall(body: String, unsafeAllowHtml: bool)

  function RenderMarkdownWithHtml(content: String): (c: MarkdownCall)
    ensures c.unsafeAllowHtml
    ensures !Contains(content, "***") && !Contains(content, "___") ==> c.body == content
  {
    ProcessMarkdownUnchanged(content);
    MarkdownCall(ProcessMarkdown(content), true)
  }

  // ---------------------------------------------------------------------------
  // Properties of a pass
  // ---------------------------------------------------------------------------

  lemma {:induction false} RunEndSuffix(a: String, b: String, d: char, i: nat)
    requires i <= |b|
    ensures RunEnd(a + b, d, |a| + i) == |a| + RunEnd(b, d, i)
    decreases |b| - i
  {
    if i < |b| && b[i] != d {
      assert (a + b)[|a| + i] == b[i];
      RunEndSuffix(a, b, d, i + 1);
    }
  }

  /** Whether a match starts at a position does not depend on what precedes it. */
  lemma MatchEndSuffix(a: String, b: String, d: char, i: nat)
    requires i <= |b|
    ensures MatchEnd(a + b, d, |a| + i) == (if MatchEnd(b, d, i) >= 0 then |a| + MatchEnd(b, d, i) else -1)
  {
    var s := a + b;
    var j := |a| + i;
    assert TripleAt(s, d, j) == TripleAt(b, d, i);
    if i + 3 <= |b| {
      RunEndSuffix(a, b, d, i + 3);
      var m := RunEnd(b, d, i + 3);
      assert TripleAt(s, d, |a| + m) == TripleAt(b, d, m);
    }
  }

  /** Dropping the first `n` characters shifts every match by `n`. */
  lemma MatchEndDrop(s: String, d: char, n: nat, k: nat)
    requires n <= |s| && k <= |s| - n
    ensures MatchEnd(s, d, n + k) == (if MatchEnd(s[n..], d, k) >= 0 then n + MatchEnd(s[n..], d, k) else -1)
  {
    assert s == s[..n] + s[n..];
    MatchEndSuffix(s[..n], s[n..], d, k);
  }

  /** Text in which the pattern matches nowhere is copied unchanged. */
  lemma {:induction false} SubNoMatch(s: String, d: char, tag: String -> String)
    requires forall k :: 0 <= k < |s| ==> MatchEnd(s, d, k) < 0
    ensures Sub(s, d, tag) == s
    decreases |s|
  {
    if s != [] {
      forall k | 0 <= k < |s[1..]|
        ensures MatchEnd(s[1..], d, k) < 0
      {
        MatchEndDrop(s, d, 1, k);
      }
      SubNoMatch(s[1..], d, tag);
    }
  }

  /** A pass never shortens the text when the template is at least as long as the match it replaces. */
  lemma {:induction false} SubLength(s: String, d: char, tag: String -> String)
    requires forall x :: |tag(x)| >= |x| + 6
    ensures |Sub(s, d, tag)| >= |s|
    decreases |s|
  {
    if s != [] {
      var e := MatchEnd(s, d, 0);
      if e >= 0 {
        SubLength(s[e..], d, tag);
      } else {
        SubLength(s[1..], d, tag);
      }
    }
  }

  /** With a template longer than the match, a match anywhere makes the pass longer than the text. */
  lemma {:induction false} SubGrows(s: String, d: char, tag: String -> String, k: nat)
    requires k < |s| && MatchEnd(s, d, k) >= 0
    requires forall x :: |tag(x)| > |x| + 6
    ensures |Sub(s, d, tag)| > |s|
    decreases |s|
  {
    var e := MatchEnd(s, d, 0);
    if e >= 0 {
      SubLength(s[e..], d, tag);
    } else {
      MatchEndDrop(s, d, 1, k - 1);
      SubGrows(s[1..], d, tag, k - 1);
    }
  }

  /** The bold italic template is eight characters longer than the match it replaces. */
  lemma TaggedLonger()
    ensures forall x :: |Tagged(x)| == |x| + 14
  {
  }

  /** A pass leaves the text as it is exactly when the pattern matches nowhere in it. */
  lemma SubUnchangedIff(s: String, d: char)
    ensures Sub(s, d, Tagged) == s <==> forall k :: 0 <= k < |s| ==> MatchEnd(s, d, k) < 0
  {
    if forall k :: 0 <= k < |s| ==> MatchEnd(s, d, k) < 0 {
      SubNoMatch(s, d, Tagged);
    } else {
      var k :| 0 <= k < |s| && MatchEnd(s, d, k) >= 0;
      TaggedLonger();
      SubGrows(s, d, Tagged, k);
    }
  }

  /** Without three delimiters in a row the pattern matches nowhere. */
  lemma NoTripleNoMatch(s: String, d: char)
    requires !Contains(s, Triple(d))
    ensures forall k :: 0 <= k < |s| ==> MatchEnd(s, d, k) < 0
  {
    forall k | 0 <= k < |s|
      ensures MatchEnd(s, d, k) < 0
    {
      ContainsIff(s, Triple(d));
      if TripleAt(s, d, k) {
        assert s[k..k + 3] == Triple(d);
        assert OccursAt(s, Triple(d), k);
      }
    }
  }

  /** Text free of the delimiter in front is copied as it is, and the pass goes on after it. */
  lemma {:induction false} SubPlain(pre: String, rest: String, d: char, tag: String -> String)
    requires d !in pre
    ensures Sub(pre + rest, d, tag) == pre + Sub(rest, d, tag)
    decreases |pre|
  {
    if pre != [] {
      var s := pre + rest;
      assert s[0] == pre[0] && !TripleAt(s, d, 0);
      assert s[1..] == pre[1..] + rest;
      SubPlain(pre[1..], rest, d, tag);
      assert pre == [pre[0]] + pre[1..];
    } else {
      assert pre + rest == rest;
    }
  }

  /** Text free of the delimiter comes out of a pass unchanged. */
  lemma SubFree(s: String, d: char, tag: String -> String)
    requires d !in s
    ensures Sub(s, d, tag) == s
  {
    assert s + [] == s;
    SubPlain(s, [], d, tag);
  }

  /** `dddxddd` at the front becomes the template's text for `x`, and the rest is rewritten on its own. */
  lemma RewriteFront(x: String, post: String, d: char, tag: String -> String)
    requires x != [] && d !in x
    ensures Sub(Triple(d) + x + Triple(d) + post, d, tag) == tag(x) + Sub(post, d, tag)
  {
    var m := Triple(d) + x + Triple(d);
    var s := m + post;
    assert s[0..|x| + 6] == m;
    assert MatchesAt(s, d, 0, x);
    MatchesAtFound(s, d, 0, x);
    var e := |x| + 6;
    assert s[e..] == post;
    assert s[3..e - 3] == x;
    assert Sub(s, d, tag) == tag(s[3..e - 3]) + Sub(s[e..], d, tag);
  }

  /**
   * `dddxddd` after text free of the delimiter becomes the template's text
   * for `x`, and the rest of the text is rewritten on its own.
   */
  lemma Rewrite(pre: String, x: String, post: String, d: char, tag: String -> String)
    requires d !in pre && x != [] && d !in x
    ensures Sub(pre + Triple(d) + x + Triple(d) + post, d, tag) == pre + tag(x) + Sub(post, d, tag)
  {
    var r := Triple(d) + x + Triple(d) + post;
    assert pre + Triple(d) + x + Triple(d) + post == pre + r;
    SubPlain(pre, r, d, tag);
    RewriteFront(x, post, d, tag);
  }

  // ---------------------------------------------------------------------------
  // Properties of the two passes
  // ---------------------------------------------------------------------------

  /** Text with neither `***` nor `___` comes back unchanged. */
  lemma ProcessMarkdownUnchanged(content: String)
    ensures !Contains(content, "***") && !Contains(content, "___") ==> ProcessMarkdown(content) == content
  {
    if !Contains(content, "***") && !Contains(content, "___") {
      assert Triple('*') == "***" && Triple('_') == "___";
      NoTripleNoMatch(content, '*');
      SubNoMatch(content, '*', Tagged);
      NoTripleNoMatch(content, '_');
      SubNoMatch(content, '_', Tagged);
    }
  }

  /** One pass over a whole `dddxddd`. */
  lemma PassWhole(x: String, d: char)
    requires x != [] && d !in x
    ensures Sub(Triple(d) + x + Triple(d), d, Tagged) == Tagged(x)
  {
    RewriteFront(x, [], d, Tagged);
    assert Triple(d) + x + Triple(d) + [] == Triple(d) + x + Triple(d);
    assert Sub([], d, Tagged) == [];
  }

  /** A whole `***x***`, or a whole `___x___`, becomes `<b><i>x</i></b>`. */
  lemma ProcessBoldItalic(x: String)
    requires x != [] && '*' !in x && '_' !in x
    ensures ProcessMarkdown("***" + x + "***") == Tagged(x)
    ensures ProcessMarkdown("___" + x + "___") == Tagged(x)
  {
    assert "***" == Triple('*') && "___" == Triple('_');
    PassWhole(x, '*');
    TaggedFree(x, '_');
    SubFree(Tagged(x), '_', Tagged);
    var u := "___" + x + "___";
    assert '*' !in u;
    SubFree(u, '*', Tagged);
    PassWhole(x, '_');
  }

  lemma TaggedFree(x: String, c: char)
    requires c !in x && c !in "<b><i>/>"
    ensures c !in Tagged(x)
  {
  }
}

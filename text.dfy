/**
 * The string operations of Python's `str` type that the system relies on:
 * whitespace stripping, `find`/`rfind`, `split`, `join`, `replace`,
 * whitespace word counts, case mapping and `int()` parsing.
 */
module Text {
  import opened Wrappers

  type String = seq<char>

  /** Python's `str.isspace`, also the class `\s` matches and the set `strip()` removes. */
  predicate IsSpace(c: char) {
    var n := c as int;
    n == 0x20 || (0x09 <= n <= 0x0D) || (0x1C <= n <= 0x1F) || n == 0x85 || n == 0xA0
    || n == 0x1680 || (0x2000 <= n <= 0x200A) || n == 0x2028 || n == 0x2029
    || n == 0x202F || n == 0x205F || n == 0x3000
  }

  predicate AllSpace(s: String) {
    forall k :: 0 <= k < |s| ==> IsSpace(s[k])
  }

  /** `s.lstrip()`: the suffix left after dropping leading whitespace. */
  function LStrip(s: String): (r: String)
    ensures |r| <= |s| && r == s[|s| - |r|..]
    ensures |r| > 0 ==> !IsSpace(r[0])
    ensures AllSpace(s[..|s| - |r|])
    decreases |s|
  {
    if |s| > 0 && IsSpace(s[0]) then LStrip(s[1..]) else s
  }

  /** `s.rstrip()`: the prefix left after dropping trailing whitespace. */
  function RStrip(s: String): (r: String)
    ensures |r| <= |s| && r == s[..|r|]
    ensures |r| > 0 ==> !IsSpace(r[|r| - 1])
    ensures AllSpace(s[|r|..])
    decreases |s|
  {
    if |s| > 0 && IsSpace(s[|s| - 1]) then RStrip(s[..|s| - 1]) else s
  }

  /** `s.strip()`. */
  function Strip(s: String): (r: String)
    ensures |r| <= |s|
    ensures |r| > 0 ==> !IsSpace(r[0]) && !IsSpace(r[|r| - 1])
    ensures r == [] <==> AllSpace(s)
  {
    var t := RStrip(s);
    var r := LStrip(t);
    r
  }

  /** Where `Strip(s)` starts in `s`: the length of the leading whitespace. */
  function StripOffset(s: String): (off: nat)
    ensures off + |Strip(s)| <= |s|
  {
    |RStrip(s)| - |Strip(s)|
  }

  /** `s.strip()` is the slice of `s` between leading and trailing whitespace. */
  lemma StripSlice(s: String)
    ensures var off := StripOffset(s);
      && Strip(s) == s[off..off + |Strip(s)|]
      && AllSpace(s[..off]) && AllSpace(s[off + |Strip(s)|..])
  {
    var t := RStrip(s);
    var off := StripOffset(s);
    assert s[..off] == t[..off];
    assert forall k :: off + |Strip(s)| <= k < |s| ==> IsSpace(s[k]) by {
      forall k | off + |Strip(s)| <= k < |s| ensures IsSpace(s[k]) {
        if k >= |t| {
          assert s[k] == s[|t|..][k - |t|];
        }
      }
    }
  }

  /** Trailing whitespace is stripped from `d` alone when `d` holds some other character. */
  lemma {:induction false} RStripConcat(a: String, d: String)
    requires !AllSpace(d)
    ensures RStrip(a + d) == a + RStrip(d)
    decreases |d|
  {
    var s := a + d;
    assert s[|s| - 1] == d[|d| - 1];
    if IsSpace(d[|d| - 1]) {
      var d' := d[..|d| - 1];
      assert s[..|s| - 1] == a + d';
      TextBeforeTrailingSpace(d);
      RStripConcat(a, d');
    }
  }

  lemma TextBeforeTrailingSpace(d: String)
    requires !AllSpace(d) && d != [] && IsSpace(d[|d| - 1])
    ensures !AllSpace(d[..|d| - 1])
  {
    var k :| 0 <= k < |d| && !IsSpace(d[k]);
    assert d[..|d| - 1][k] == d[k];
  }

  lemma LStripSpace(r: String)
    ensures LStrip(" " + r) == LStrip(r)
  {
    assert (" " + r)[1..] == r;
  }

  /** `(" " + d).strip() == d.strip()` when `d` starts with a non-space character. */
  lemma StripSpacePrefix(d: String)
    requires d != [] && !IsSpace(d[0])
    ensures Strip(" " + d) == Strip(d)
  {
    RStripConcat(" ", d);
    LStripSpace(RStrip(d));
  }

  predicate StartsWith(s: String, p: String) {
    |p| <= |s| && s[..|p|] == p
  }

  /** `s.startswith(prefixes)` with a tuple of prefixes. */
  lemma SliceSplit<T>(s: seq<T>, i: nat, k: nat)
    requires i <= k <= |s|
    ensures s[i..] == s[i..k] + s[k..]
  {
  }

  lemma TakeSnoc<T>(s: seq<T>, i: nat)
    requires i < |s|
    ensures s[..i + 1] == s[..i] + [s[i]]
  {
  }

  /** `a + b` is `a` followed by all of `b` but its last element, then that element. */
  lemma SnocSplit<T>(a: seq<T>, b: seq<T>)
    ensures b == [] ==> a + b == a
    ensures b != [] ==> a + b == (a + b[..|b| - 1]) + [b[|b| - 1]]
  {
  }

  lemma AppendAssoc<T>(a: seq<T>, b: seq<T>, c: seq<T>)
    ensures a + b + c == a + (b + c)
  {
  }

  lemma EmptyPrefix<T>(a: seq<T>)
    ensures [] + a == a
  {
  }

  lemma TakeAll<T>(s: seq<T>)
    ensures s[..|s|] == s
  {
  }

  /** The texts of `xs` under `f`, one after the other. */
  function ConcatMap<T>(xs: seq<T>, f: T -> String): String {
    if xs == [] then [] else ConcatMap(xs[..|xs| - 1], f) + f(xs[|xs| - 1])
  }

  /** Rendering two runs is rendering the first, then the second. */
  lemma {:induction false} ConcatMapAppend<T>(a: seq<T>, b: seq<T>, f: T -> String)
    ensures ConcatMap(a + b, f) == ConcatMap(a, f) + ConcatMap(b, f)
    decreases |b|
  {
    if b == [] {
      assert a + b == a;
    } else {
      var b' := b[..|b| - 1];
      assert (a + b)[..|a + b| - 1] == a + b';
      ConcatMapAppend(a, b', f);
    }
  }

  /** Each element's text sits between the texts of those before and after it. */
  lemma {:induction false} ConcatMapAt<T>(xs: seq<T>, k: nat, f: T -> String)
    requires k < |xs|
    ensures ConcatMap(xs, f) == ConcatMap(xs[..k], f) + f(xs[k]) + ConcatMap(xs[k + 1..], f)
  {
    var a, x, b := xs[..k], [xs[k]], xs[k + 1..];
    assert xs == a + x + b;
    ConcatMapAppend(a + x, b, f);
    ConcatMapAppend(a, x, f);
    ConcatMapOne(xs[k], f);
  }

  lemma ConcatMapOne<T>(x: T, f: T -> String)
    ensures ConcatMap([x], f) == f(x)
  {
    assert [x][..0] == [];
    EmptyPrefix(f(x));
  }

  /** A property holds of every member exactly when it holds at every index. */
  lemma AllByIndex<T>(s: seq<T>, p: T -> bool)
    ensures (forall x :: x in s ==> p(x)) <==> (forall k :: 0 <= k < |s| ==> p(s[k]))
  {
    if forall k :: 0 <= k < |s| ==> p(s[k]) {
      forall x | x in s ensures p(x) {
        var k :| 0 <= k < |s| && s[k] == x;
      }
    }
  }

  /** Different first characters: no prefix. */
  lemma FirstCharDiffers(s: String, p: String)
    requires |p| > 0 && (|s| == 0 || s[0] != p[0])
    ensures !StartsWith(s, p)
  {
    if |p| <= |s| {
      assert s[..|p|][0] == s[0];
    }
  }

  lemma StartsWithSelf(s: String)
    ensures StartsWith(s, s)
  {
    assert s[..|s|] == s;
  }

  lemma KeepsPrefix(a: String, b: String, p: String)
    requires StartsWith(a, p)
    ensures StartsWith(a + b, p)
  {
    assert (a + b)[..|p|] == a[..|p|];
  }

  predicate StartsWithAny(s: String, prefixes: seq<String>) {
    exists k :: 0 <= k < |prefixes| && StartsWith(s, prefixes[k])
  }

  predicate EndsWith(s: String, p: String) {
    |p| <= |s| && s[|s| - |p|..] == p
  }

  /** `sub` occurs in `s` at index `i`. */
  predicate OccursAt(s: String, sub: String, i: int) {
    0 <= i && i + |sub| <= |s| && s[i..i + |sub|] == sub
  }

  lemma SliceOfSlice(s: String, a: nat, b: nat, c: nat, d: nat)
    requires a <= b <= |s| && c <= d <= b - a
    ensures s[a..b][c..d] == s[a + c..a + d]
  {
    assert forall k :: 0 <= k < d - c ==> s[a..b][c..d][k] == s[a + c..a + d][k];
  }

  /** `s.find(sub, start)`: the lowest index at or after `start` where `sub` occurs, or -1. */
  function FindFrom(s: String, sub: String, start: nat): (r: int)
    ensures r == -1 || (start <= r && OccursAt(s, sub, r))
    ensures forall k :: start <= k && (r == -1 || k < r) ==> !OccursAt(s, sub, k)
    decreases |s| - start
  {
    if start + |sub| > |s| then -1
    else if s[start..start + |sub|] == sub then start
    else FindFrom(s, sub, start + 1)
  }

  lemma FindAbsentChar(s: String, c: char)
    requires c !in s
    ensures FindFrom(s, [c], 0) == -1
  {
    forall k | 0 <= k < |s| ensures !OccursAt(s, [c], k) {
      assert s[k..k + 1] == [s[k]];
    }
  }

  lemma FindAbsentHead(s: String, sub: String, start: nat)
    requires |sub| > 0 && sub[0] !in s
    ensures FindFrom(s, sub, start) == -1
  {
    forall k | start <= k ensures !OccursAt(s, sub, k) {
      if k + |sub| <= |s| {
        assert s[k] == s[k..k + |sub|][0];
      }
    }
  }

  /** `s.find(sub)`. */
  function Find(s: String, sub: String): int {
    FindFrom(s, sub, 0)
  }

  /** An occurrence with none before it is the one `find` reports. */
  lemma FindFirst(s: String, sub: String, j: nat)
    requires OccursAt(s, sub, j)
    requires forall k :: 0 <= k < j ==> !OccursAt(s, sub, k)
    ensures Find(s, sub) == j
  {
  }

  /** `s.find(c)` for one character: the first index holding `c`, or -1 when there is none. */
  lemma FindCharFacts(s: String, c: char)
    ensures var j := Find(s, [c]);
      && (j >= 0 ==> j < |s| && s[j] == c && c !in s[..j])
      && (j < 0 ==> c !in s)
  {
    var j := Find(s, [c]);
    if j >= 0 {
      assert s[j] == s[j..j + 1][0];
      forall k | 0 <= k < j ensures s[..j][k] != c {
        assert !OccursAt(s, [c], k);
        assert s[k..k + 1] == [s[k]];
      }
    } else {
      forall k | 0 <= k < |s| ensures s[k] != c {
        assert !OccursAt(s, [c], k);
        assert s[k..k + 1] == [s[k]];
      }
    }
  }

  /** `sub in s`. */
  predicate Contains(s: String, sub: String) {
    Find(s, sub) >= 0
  }

  lemma ContainsIff(s: String, sub: String)
    ensures Contains(s, sub) <==> exists i :: OccursAt(s, sub, i)
  {
  }

  /** The highest index at most `k` where `sub` occurs, or -1. */
  function LastAtMost(s: String, sub: String, k: int): (r: int)
    ensures r == -1 || (0 <= r <= k && OccursAt(s, sub, r))
    ensures forall j :: r < j <= k ==> !OccursAt(s, sub, j)
    decreases k + 1
  {
    if k < 0 then -1 else if OccursAt(s, sub, k) then k else LastAtMost(s, sub, k - 1)
  }

  /** `s.rfind(sub)`. */
  function RFind(s: String, sub: String): (r: int)
    ensures r == -1 || OccursAt(s, sub, r)
    ensures forall j :: r < j ==> !OccursAt(s, sub, j)
  {
    LastAtMost(s, sub, |s|)
  }

  /** The number of occurrences of character `c` (`s.count(c)` for a one-character string). */
  function CountChar(s: String, c: char): nat
    decreases |s|
  {
    if |s| == 0 then 0 else CountChar(s[..|s| - 1], c) + (if s[|s| - 1] == c then 1 else 0)
  }

  lemma {:induction false} CountCharAppend(a: String, b: String, c: char)
    ensures CountChar(a + b, c) == CountChar(a, c) + CountChar(b, c)
    decreases |b|
  {
    if |b| == 0 {
      assert a + b == a;
    } else {
      assert (a + b)[..|a + b| - 1] == a + b[..|b| - 1];
      CountCharAppend(a, b[..|b| - 1], c);
    }
  }

  /** `s.split(sep)` for a one-character separator. */
  function Split(s: String, sep: char): (parts: seq<String>)
    ensures |parts| >= 1
    decreases |s|
  {
    var i := Find(s, [sep]);
    if i < 0 then [s] else [s[..i]] + Split(s[i + 1..], sep)
  }

  /** Splitting at a first separator: the text before it is the first part. */
  lemma SplitAfterFirst(a: String, b: String, sep: char)
    requires sep !in a
    ensures Split(a + [sep] + b, sep) == [a] + Split(b, sep)
  {
    var s := a + [sep] + b;
    assert s[|a|..|a| + 1] == [sep];
    assert OccursAt(s, [sep], |a|);
    forall k | 0 <= k < |a| ensures !OccursAt(s, [sep], k) {
      assert s[k..k + 1] == [a[k]];
    }
    assert Find(s, [sep]) == |a|;
    assert s[..|a|] == a;
    assert s[|a| + 1..] == b;
  }

  lemma SeparatorFree(a: String, sep: char, i: nat)
    requires i <= |a|
    requires forall k :: 0 <= k < i ==> !OccursAt(a, [sep], k)
    ensures sep !in a[..i]
  {
    forall k | 0 <= k < i ensures a[..i][k] != sep {
      assert !OccursAt(a, [sep], k);
      assert a[k..k + 1] == [a[k]];
    }
  }

  /** Splitting at a last separator: the text after it is the last part. */
  lemma {:induction false} SplitBeforeLast(a: String, b: String, sep: char)
    requires sep !in b
    ensures Split(a + [sep] + b, sep) == Split(a, sep) + [b]
    decreases |a|
  {
    var i := Find(a, [sep]);
    FindAbsentChar(b, sep);
    if i < 0 {
      SeparatorFree(a, sep, |a|);
      assert a[..|a|] == a;
      SplitAfterFirst(a, b, sep);
    } else {
      var rest := a[i + 1..];
      SplitAtFirst(a, b, sep, i);
      SplitBeforeLast(rest, b, sep);
    }
  }

  /** Both splits peel off the same first part when `a` holds the separator. */
  lemma SplitAtFirst(a: String, b: String, sep: char, i: int)
    requires i == Find(a, [sep]) && i >= 0
    ensures Split(a, sep) == [a[..i]] + Split(a[i + 1..], sep)
    ensures Split(a + [sep] + b, sep) == [a[..i]] + Split(a[i + 1..] + [sep] + b, sep)
  {
    SeparatorFree(a, sep, i);
    assert a[i..i + 1] == [sep];
    var rest := a[i + 1..];
    assert a == a[..i] + [sep] + rest;
    assert a + [sep] + b == a[..i] + [sep] + (rest + [sep] + b);
    SplitAfterFirst(a[..i], rest + [sep] + b, sep);
    SplitAfterFirst(a[..i], rest, sep);
  }

  /** `s.split('\n')`. */
  function Lines(s: String): (parts: seq<String>)
    ensures |parts| >= 1
  {
    Split(s, '\n')
  }

  /** `sep.join(parts)`. */
  function Join(sep: String, parts: seq<String>): String
    decreases |parts|
  {
    if |parts| == 0 then [] else if |parts| == 1 then parts[0] else parts[0] + sep + Join(sep, parts[1..])
  }

  lemma {:induction false} JoinSplit(s: String, sep: char)
    ensures Join([sep], Split(s, sep)) == s
    decreases |s|
  {
    var i := Find(s, [sep]);
    if i >= 0 {
      var rest := Split(s[i + 1..], sep);
      JoinSplit(s[i + 1..], sep);
      assert Split(s, sep) == [s[..i]] + rest;
      assert ([s[..i]] + rest)[1..] == rest;
      assert s[i..i + 1] == [sep];
      assert s == s[..i] + [sep] + s[i + 1..];
    }
  }

  lemma {:induction false} JoinAppend(sep: String, parts: seq<String>, x: String)
    requires |parts| > 0
    ensures Join(sep, parts + [x]) == Join(sep, parts) + sep + x
    decreases |parts|
  {
    if |parts| == 1 {
      assert parts + [x] == [parts[0], x];
    } else {
      assert (parts + [x])[1..] == parts[1..] + [x];
      JoinAppend(sep, parts[1..], x);
    }
  }

  /** A join of non-empty parts starts with the first part's first character and ends with the last part's last one. */
  lemma JoinEdges(sep: String, parts: seq<String>)
    requires |parts| > 0 && parts[0] != [] && parts[|parts| - 1] != []
    ensures var j := Join(sep, parts);
      && |j| > 0 && j[0] == parts[0][0]
      && j[|j| - 1] == parts[|parts| - 1][|parts[|parts| - 1]| - 1]
  {
    if |parts| > 1 {
      var init := parts[..|parts| - 1];
      assert parts == init + [parts[|parts| - 1]];
      JoinAppend(sep, init, parts[|parts| - 1]);
    }
  }

  /** `(s + " ").strip() == s` for a text without surrounding whitespace. */
  lemma StripTrailingSpace(s: String)
    requires s != [] && !IsSpace(s[0]) && !IsSpace(s[|s| - 1])
    ensures Strip(s + " ") == s
  {
    assert (s + " ")[..|s|] == s;
    assert RStrip(s) == s;
    assert LStrip(s) == s;
  }

  /** `s.replace(pat, repl)`: non-overlapping occurrences, scanned left to right. */
  function Replace(s: String, pat: String, repl: String): (r: String)
    requires |pat| > 0
    decreases |s|
  {
    var i := Find(s, pat);
    if i < 0 then s else s[..i] + repl + Replace(s[i + |pat|..], pat, repl)
  }

  /** `len(s.split())`: the number of maximal runs of non-whitespace characters. */
  function WordCount(s: String): nat
    decreases |s|
  {
    if |s| == 0 then 0
    else
      var starts := !IsSpace(s[|s| - 1]) && (|s| == 1 || IsSpace(s[|s| - 2]));
      WordCount(s[..|s| - 1]) + (if starts then 1 else 0)
  }

  function LowerChar(c: char): char {
    if 'A' <= c <= 'Z' then (c as int + 32) as char else c
  }

  function UpperChar(c: char): char {
    if 'a' <= c <= 'z' then (c as int - 32) as char else c
  }

  /** `s.lower()` on ASCII letters. */
  function Lower(s: String): (r: String)
    ensures |r| == |s| && forall k :: 0 <= k < |s| ==> r[k] == LowerChar(s[k])
  {
    seq(|s|, k requires 0 <= k < |s| => LowerChar(s[k]))
  }

  /** `s.upper()` on ASCII letters. */
  function Upper(s: String): (r: String)
    ensures |r| == |s| && forall k :: 0 <= k < |s| ==> r[k] == UpperChar(s[k])
  {
    seq(|s|, k requires 0 <= k < |s| => UpperChar(s[k]))
  }

  /** `a.upper() == w`, compared one character at a time. */
  predicate UpperEquals(a: String, w: String)
    decreases |a|
  {
    |a| == |w| && (a == [] || (UpperChar(a[0]) == w[0] && UpperEquals(a[1..], w[1..])))
  }

  lemma {:induction false} UpperEqualsIff(a: String, w: String)
    ensures UpperEquals(a, w) <==> Upper(a) == w
    decreases |a|
  {
    if |a| == |w| && a != [] {
      UpperEqualsIff(a[1..], w[1..]);
      assert Upper(a) == [UpperChar(a[0])] + Upper(a[1..]);
      if Upper(a) == w {
        assert w[1..] == Upper(a)[1..];
      }
    }
  }

  predicate IsDigit(c: char) {
    '0' <= c <= '9'
  }

  predicate AllDigits(s: String) {
    forall k :: 0 <= k < |s| ==> IsDigit(s[k])
  }

  /** The value of a run of decimal digits, read left to right. */
  function DigitsValue(s: String): nat
    requires AllDigits(s)
    decreases |s|
  {
    if |s| == 0 then 0 else DigitsValue(s[..|s| - 1]) * 10 + (s[|s| - 1] as int - '0' as int)
  }

  /** `int(s)` for ASCII input: optional surrounding whitespace, an optional sign, then digits. */
  function ParseInt(s: String): Option<int> {
    var t := Strip(s);
    if |t| > 0 && (t[0] == '+' || t[0] == '-') then
      if |t| > 1 && AllDigits(t[1..]) then
        var v: int := DigitsValue(t[1..]);
        Some(if t[0] == '-' then -v else v)
      else None
    else if |t| > 0 && AllDigits(t) then Some(DigitsValue(t))
    else None
  }

  /** The longest prefix of `s` made of digits. */
  function DigitPrefix(s: String): (r: String)
    ensures AllDigits(r) && StartsWith(s, r)
    ensures |r| < |s| ==> !IsDigit(s[|r|])
    decreases |s|
  {
    if |s| > 0 && IsDigit(s[0]) then [s[0]] + DigitPrefix(s[1..]) else []
  }

  /** `re.search(r'\d+', s)` read as a number: the first maximal run of digits, if any. */
  function FirstDigitRun(s: String): (r: Option<nat>)
    ensures r.None? <==> (forall k :: 0 <= k < |s| ==> !IsDigit(s[k]))
    decreases |s|
  {
    if |s| == 0 then None
    else if IsDigit(s[0]) then Some(DigitsValue(DigitPrefix(s)))
    else FirstDigitRun(s[1..])
  }

  function DigitChar(d: nat): char
    requires d < 10
  {
    ('0' as int + d) as char
  }

  /** `str(n)` for a natural number. */
  function NatToString(n: nat): (r: String)
    ensures |r| > 0 && AllDigits(r)
    decreases n
  {
    if n < 10 then [DigitChar(n)] else NatToString(n / 10) + [DigitChar(n % 10)]
  }

  /** `str(i)` for an integer. */
  function IntToString(i: int): String {
    if i < 0 then "-" + NatToString(-i) else NatToString(i)
  }

  lemma {:induction false} NatToStringValue(n: nat)
    ensures DigitsValue(NatToString(n)) == n
    decreases n
  {
    var r := NatToString(n);
    if n >= 10 {
      NatToStringValue(n / 10);
      assert r[..|r| - 1] == NatToString(n / 10);
    }
  }

  lemma NoSpaceStrip(s: String)
    requires forall k :: 0 <= k < |s| ==> !IsSpace(s[k])
    ensures Strip(s) == s
  {
    assert RStrip(s) == s;
    assert LStrip(s) == s;
  }

  lemma NoEdgeSpaceStrip(s: String)
    requires |s| > 0 ==> !IsSpace(s[0]) && !IsSpace(s[|s| - 1])
    ensures Strip(s) == s
  {
    assert RStrip(s) == s;
    assert LStrip(s) == s;
  }

  lemma StripIdempotent(s: String)
    ensures Strip(Strip(s)) == Strip(s)
  {
    NoEdgeSpaceStrip(Strip(s));
  }

  /** `int(str(i)) == i`. */
  lemma ParseIntToString(i: int)
    ensures ParseInt(IntToString(i)) == Some(i)
  {
    var n: nat := if i < 0 then -i else i;
    var d := NatToString(n);
    NatToStringValue(n);
    var s := IntToString(i);
    assert s == if i < 0 then "-" + d else d;
    forall k | 0 <= k < |s|
      ensures !IsSpace(s[k])
    {
      if i >= 0 || k > 0 {
        assert IsDigit(s[k]) by {
          if i < 0 { assert s[k] == d[k - 1]; }
        }
      }
    }
    NoSpaceStrip(s);
    if i < 0 {
      assert s[0] == '-' && s[1..] == d;
    } else {
      assert IsDigit(s[0]);
    }
  }
}

/**
 * String helpers shared by the PHP services and the JavaScript widget:
 * trimming (PHP and ECMAScript flavours), PHP's `empty()` on strings,
 * substring search, explode/implode, and regex-style run collapsing.
 */
module Strings {

  /** The characters PHP's `trim()` removes by default: " \t\n\r\0\x0B". */
  predicate IsPhpTrimChar(c: char) {
    c == ' ' || c == '\t' || c == '\n' || c == '\r' || c == '\0' || c == '\U{0B}'
  }

  /** The characters matched by PCRE's `\s` outside UTF mode. */
  predicate IsPcreSpace(c: char) {
    c == ' ' || c == '\t' || c == '\n' || c == '\U{0B}' || c == '\U{0C}' || c == '\r'
  }

  /** ECMAScript WhiteSpace and LineTerminator, which `String.prototype.trim` removes. */
  predicate IsJsSpace(c: char) {
    c == '\t' || c == '\n' || c == '\U{0B}' || c == '\U{0C}' || c == '\r' || c == ' '
    || c == '\U{A0}' || c == '\U{1680}' || ('\U{2000}' <= c <= '\U{200A}')
    || c == '\U{2028}' || c == '\U{2029}' || c == '\U{202F}' || c == '\U{205F}'
    || c == '\U{3000}' || c == '\U{FEFF}'
  }

  function TrimLeftBy(s: string, p: char -> bool): (r: string)
    ensures |r| <= |s|
    ensures r == [] || !p(r[0])
  {
    if s != [] && p(s[0]) then TrimLeftBy(s[1..], p) else s
  }

  function TrimRightBy(s: string, p: char -> bool): (r: string)
    ensures |r| <= |s|
    ensures r == [] || !p(r[|r| - 1])
  {
    if s != [] && p(s[|s| - 1]) then TrimRightBy(s[..|s| - 1], p) else s
  }

  function TrimBy(s: string, p: char -> bool): string {
    TrimRightBy(TrimLeftBy(s, p), p)
  }

  /** PHP `trim($s)`. */
  function Trim(s: string): string { TrimBy(s, IsPhpTrimChar) }

  /** PHP `ltrim($s, $c)` for a single character. */
  function LTrimChar(s: string, c: char): string { TrimLeftBy(s, x => x == c) }

  /** PHP `rtrim($s, $c)` for a single character. */
  function RTrimChar(s: string, c: char): string { TrimRightBy(s, x => x == c) }

  /** ECMAScript `s.trim()`. */
  function JsTrim(s: string): string { TrimBy(s, IsJsSpace) }

  /** A string that begins and ends with a character outside `p`, or is empty. */
  predicate IsTrimmedBy(s: string, p: char -> bool) {
    s == [] || (!p(s[0]) && !p(s[|s| - 1]))
  }

  lemma {:induction false} TrimLeftOfNonSpaceStart(s: string, p: char -> bool)
    requires s == [] || !p(s[0])
    ensures TrimLeftBy(s, p) == s
  {
  }

  lemma {:induction false} TrimRightKeepsStart(s: string, p: char -> bool)
    requires s != [] && !p(s[0])
    ensures TrimRightBy(s, p) != [] && !p(TrimRightBy(s, p)[0])
  {
    if p(s[|s| - 1]) {
      assert s[..|s| - 1][0] == s[0];
      TrimRightKeepsStart(s[..|s| - 1], p);
    }
  }

  /** Trimming leaves a string that starts and ends outside the trimmed class. */
  lemma {:induction false} TrimByIsTrimmed(s: string, p: char -> bool)
    ensures IsTrimmedBy(TrimBy(s, p), p)
  {
    var l := TrimLeftBy(s, p);
    if l != [] {
      TrimRightKeepsStart(l, p);
    }
  }

  /** A trimmed string is its own trim, and only a trimmed string is. */
  lemma {:induction false} TrimByFixedPoint(s: string, p: char -> bool)
    ensures TrimBy(s, p) == s <==> IsTrimmedBy(s, p)
  {
    TrimByIsTrimmed(s, p);
    if IsTrimmedBy(s, p) {
      TrimLeftOfNonSpaceStart(s, p);
    }
  }

  lemma {:induction false} TrimByIdempotent(s: string, p: char -> bool)
    ensures TrimBy(TrimBy(s, p), p) == TrimBy(s, p)
  {
    TrimByIsTrimmed(s, p);
    TrimByFixedPoint(TrimBy(s, p), p);
  }

  /** Everything `TrimBy` drops is in the trimmed class: s == pre + TrimBy(s) + post. */
  lemma {:induction false} TrimBySplit(s: string, p: char -> bool) returns (pre: string, post: string)
    ensures s == pre + TrimBy(s, p) + post
    ensures forall i :: 0 <= i < |pre| ==> p(pre[i])
    ensures forall i :: 0 <= i < |post| ==> p(post[i])
  {
    pre := TrimLeftSplit(s, p);
    post := TrimRightSplit(TrimLeftBy(s, p), p);
  }

  lemma {:induction false} TrimLeftSplit(s: string, p: char -> bool) returns (pre: string)
    ensures s == pre + TrimLeftBy(s, p)
    ensures forall i :: 0 <= i < |pre| ==> p(pre[i])
  {
    if s != [] && p(s[0]) {
      var pre' := TrimLeftSplit(s[1..], p);
      pre := [s[0]] + pre';
    } else {
      pre := [];
    }
  }

  lemma {:induction false} TrimRightSplit(s: string, p: char -> bool) returns (post: string)
    ensures s == TrimRightBy(s, p) + post
    ensures forall i :: 0 <= i < |post| ==> p(post[i])
  {
    if s != [] && p(s[|s| - 1]) {
      var post' := TrimRightSplit(s[..|s| - 1], p);
      post := post' + [s[|s| - 1]];
    } else {
      post := [];
    }
  }

  /** A non-empty trimmed string is unchanged when surrounded by trimmed-class characters. */
  lemma {:induction false} TrimBySurrounded(pre: string, t: string, post: string, p: char -> bool)
    requires forall i :: 0 <= i < |pre| ==> p(pre[i])
    requires forall i :: 0 <= i < |post| ==> p(post[i])
    requires t != [] && IsTrimmedBy(t, p)
    ensures TrimBy(pre + t + post, p) == t
  {
    assert pre + t + post == pre + (t + post);
    assert (t + post)[0] == t[0];
    TrimLeftSurrounded(pre, t + post, p);
    TrimRightSurrounded(t, post, p);
  }

  lemma {:induction false} TrimLeftSurrounded(pre: string, rest: string, p: char -> bool)
    requires forall i :: 0 <= i < |pre| ==> p(pre[i])
    requires rest != [] && !p(rest[0])
    ensures TrimLeftBy(pre + rest, p) == rest
  {
    if pre != [] {
      assert (pre + rest)[1..] == pre[1..] + rest;
      TrimLeftSurrounded(pre[1..], rest, p);
    }
  }

  lemma {:induction false} TrimRightSurrounded(t: string, post: string, p: char -> bool)
    requires forall i :: 0 <= i < |post| ==> p(post[i])
    requires t != [] && !p(t[|t| - 1])
    ensures TrimRightBy(t + post, p) == t
  {
    if post != [] {
      var n := |post| - 1;
      assert (t + post)[..|t + post| - 1] == t + post[..n];
      TrimRightSurrounded(t, post[..n], p);
    }
  }

  /** Trimming leaves nothing exactly when every character is in the trimmed class. */
  lemma {:induction false} TrimByEmptyIff(s: string, p: char -> bool)
    ensures TrimBy(s, p) == [] <==> forall i :: 0 <= i < |s| ==> p(s[i])
  {
    var pre, post := TrimBySplit(s, p);
    if TrimBy(s, p) == [] {
      assert s == pre + post;
      forall i | 0 <= i < |s| ensures p(s[i]) {
        if i < |pre| { assert s[i] == pre[i]; } else { assert s[i] == post[i - |pre|]; }
      }
    } else {
      var t := TrimBy(s, p);
      TrimByIsTrimmed(s, p);
      assert s[|pre|] == t[0];
    }
  }

  /** A string with a kept character keeps it whatever surrounds it. */
  lemma {:induction false} TrimByNonEmptyGlue(a: string, b: string, c: string, p: char -> bool)
    requires TrimBy(b, p) != []
    ensures TrimBy(a + b + c, p) != []
  {
    TrimByEmptyIff(b, p);
    var i :| 0 <= i < |b| && !p(b[i]);
    assert (a + b + c)[|a| + i] == b[i];
    TrimByEmptyIff(a + b + c, p);
  }

  /** A string ending with a kept character does not trim to nothing. */
  lemma {:induction false} TrimByLastKept(s: string, p: char -> bool)
    requires s != [] && !p(s[|s| - 1])
    ensures TrimBy(s, p) != []
  {
    TrimByEmptyIff(s, p);
  }

  /** PHP `empty($s)` for a string: true for "" and for "0". */
  predicate PhpEmpty(s: string) {
    s == "" || s == "0"
  }

  /** PHP `str_starts_with`. */
  predicate StartsWith(s: string, prefix: string) {
    |prefix| <= |s| && s[..|prefix|] == prefix
  }

  /** PHP `str_ends_with`. */
  predicate EndsWith(s: string, suffix: string) {
    |suffix| <= |s| && s[|s| - |suffix|..] == suffix
  }

  /** PHP `str_contains` / `strpos(...) !== false`. */
  predicate Contains(s: string, sub: string)
    decreases |s|
  {
    StartsWith(s, sub) || (s != [] && Contains(s[1..], sub))
  }

  lemma {:induction false} ContainsInfix(pre: string, mid: string, post: string)
    ensures Contains(pre + mid + post, mid)
    decreases |pre|
  {
    if pre == [] {
      assert (pre + mid + post)[..|mid|] == mid;
    } else {
      assert (pre + mid + post)[1..] == pre[1..] + mid + post;
      ContainsInfix(pre[1..], mid, post);
    }
  }

  /** A witness position for `Contains`. */
  lemma {:induction false} ContainsAt(s: string, sub: string) returns (i: nat)
    requires Contains(s, sub)
    ensures i + |sub| <= |s| && s[i..i + |sub|] == sub
    decreases |s|
  {
    if StartsWith(s, sub) {
      i := 0;
    } else {
      var j := ContainsAt(s[1..], sub);
      i := j + 1;
      assert s[1..][j..j + |sub|] == s[i..i + |sub|];
    }
  }

  lemma {:induction false} ContainsExtend(a: string, s: string, b: string, sub: string)
    requires Contains(s, sub)
    ensures Contains(a + s + b, sub)
  {
    var i := ContainsAt(s, sub);
    assert a + s + b == (a + s[..i]) + sub + (s[i + |sub|..] + b);
    ContainsInfix(a + s[..i], sub, s[i + |sub|..] + b);
  }

  /** A string that contains `sub` is at least as long, and equal to it when as long. */
  lemma {:induction false} ContainsLength(s: string, sub: string)
    requires Contains(s, sub)
    ensures |sub| <= |s| && (|sub| == |s| ==> s == sub)
  {
    var i := ContainsAt(s, sub);
    if |sub| == |s| {
      assert s[i..i + |sub|] == s;
    }
  }

  /** Trimming cannot cut into a contained string that starts and ends outside the trimmed class. */
  lemma {:induction false} ContainsTrimBy(s: string, sub: string, p: char -> bool)
    requires Contains(s, sub) && sub != [] && IsTrimmedBy(sub, p)
    ensures Contains(TrimBy(s, p), sub)
  {
    var i := ContainsAt(s, sub);
    var pre, post := TrimBySplit(s, p);
    MiddleContains(s, pre, TrimBy(s, p), post, p, i, sub);
  }

  /** The middle of `pre + t + post`, with class-only ends, holds every occurrence that starts and ends outside the class. */
  lemma {:induction false} MiddleContains(s: string, pre: string, t: string, post: string, p: char -> bool, i: nat, sub: string)
    requires s == pre + t + post
    requires forall k :: 0 <= k < |pre| ==> p(pre[k])
    requires forall k :: 0 <= k < |post| ==> p(post[k])
    requires sub != [] && IsTrimmedBy(sub, p) && i + |sub| <= |s| && s[i..i + |sub|] == sub
    ensures Contains(t, sub)
  {
    TrimSpan(s, pre, t, post, p, i, sub);
    var lo := i - |pre|;
    assert t[lo..lo + |sub|] == sub by {
      assert t == s[|pre|..|pre| + |t|];
    }
    ContainsSlice(t, lo, sub);
  }

  /** A string contains any of its slices. */
  lemma {:induction false} ContainsSlice(t: string, lo: nat, sub: string)
    requires lo + |sub| <= |t| && t[lo..lo + |sub|] == sub
    ensures Contains(t, sub)
  {
    assert t == t[..lo] + sub + t[lo + |sub|..];
    ContainsInfix(t[..lo], sub, t[lo + |sub|..]);
  }

  /** An occurrence that starts and ends outside the class lies within the trimmed middle. */
  lemma {:induction false} TrimSpan(s: string, pre: string, t: string, post: string, p: char -> bool, i: nat, sub: string)
    requires s == pre + t + post
    requires forall k :: 0 <= k < |pre| ==> p(pre[k])
    requires forall k :: 0 <= k < |post| ==> p(post[k])
    requires sub != [] && IsTrimmedBy(sub, p) && i + |sub| <= |s| && s[i..i + |sub|] == sub
    ensures |pre| <= i && i + |sub| <= |pre| + |t|
  {
    assert forall k :: 0 <= k < |pre| ==> s[k] == pre[k];
    assert forall k :: |pre| + |t| <= k < |s| ==> s[k] == post[k - |pre| - |t|];
    assert s[i] == sub[0];
    assert s[i + |sub| - 1] == sub[|sub| - 1];
  }

  /** Index of the first occurrence of `c`, or -1 (PHP `strpos` on one character). */
  function IndexOf(s: string, c: char): (r: int)
    ensures -1 <= r < |s|
    ensures r >= 0 ==> s[r] == c && forall k :: 0 <= k < r ==> s[k] != c
    ensures r == -1 <==> forall k :: 0 <= k < |s| ==> s[k] != c
  {
    if s == [] then -1
    else if s[0] == c then 0
    else
      var r := IndexOf(s[1..], c);
      assert forall k :: 1 <= k < |s| ==> s[k] == s[1..][k - 1];
      if r == -1 then -1 else r + 1
  }

  /** PHP `implode($sep, $parts)`. */
  function Join(parts: seq<string>, sep: string): string {
    if |parts| == 0 then ""
    else if |parts| == 1 then parts[0]
    else parts[0] + sep + Join(parts[1..], sep)
  }

  lemma {:induction false} JoinSnoc(parts: seq<string>, p: string, sep: string)
    ensures Join(parts + [p], sep) == if parts == [] then p else Join(parts, sep) + sep + p
  {
    if |parts| > 1 {
      assert (parts + [p])[1..] == parts[1..] + [p];
      JoinSnoc(parts[1..], p, sep);
    } else if |parts| == 1 {
      assert (parts + [p])[1..] == [p];
    }
  }

  lemma {:induction false} JoinAppend(xs: seq<string>, ys: seq<string>, sep: string)
    requires xs != [] && ys != []
    ensures Join(xs + ys, sep) == Join(xs, sep) + sep + Join(ys, sep)
  {
    if |xs| == 1 {
      assert (xs + ys)[1..] == ys;
    } else {
      assert (xs + ys)[1..] == xs[1..] + ys;
      JoinAppend(xs[1..], ys, sep);
    }
  }

  /** Every part occurs in the glued string. */
  lemma {:induction false} JoinContains(parts: seq<string>, sep: string, k: nat)
    requires k < |parts|
    ensures Contains(Join(parts, sep), parts[k])
  {
    if |parts| == 1 {
      assert Join(parts, sep) == "" + parts[0] + "";
      ContainsInfix("", parts[0], "");
    } else if k == 0 {
      assert Join(parts, sep) == "" + parts[0] + (sep + Join(parts[1..], sep));
      ContainsInfix("", parts[0], sep + Join(parts[1..], sep));
    } else {
      var rest := Join(parts[1..], sep);
      JoinContains(parts[1..], sep, k - 1);
      assert parts[1..][k - 1] == parts[k];
      assert Join(parts, sep) == (parts[0] + sep) + rest + "";
      ContainsExtend(parts[0] + sep, rest, "", parts[k]);
    }
  }

  /** PHP `explode($c, $s)` with a one-character separator. */
  function Split(s: string, c: char): (r: seq<string>)
    ensures |r| >= 1
    decreases |s|
  {
    var i := IndexOf(s, c);
    if i < 0 then [s] else [s[..i]] + Split(s[i + 1..], c)
  }

  /** explode and implode are inverse: the pieces, glued with the separator, give back the string. */
  lemma {:induction false} JoinSplit(s: string, c: char)
    ensures Join(Split(s, c), [c]) == s
    ensures forall k :: 0 <= k < |Split(s, c)| ==> c !in Split(s, c)[k]
  {
    JoinSplitRound(s, c);
    SplitPiecesFree(s, c);
  }

  lemma {:induction false} JoinSplitRound(s: string, c: char)
    ensures Join(Split(s, c), [c]) == s
    decreases |s|
  {
    var i := IndexOf(s, c);
    if i >= 0 {
      var head, tail := s[..i], s[i + 1..];
      SplitAt(s, c, i);
      JoinSplitRound(tail, c);
      JoinAppend([head], Split(tail, c), [c]);
    }
  }

  /** One step of `explode`: the piece before the first separator, then the pieces of the rest. */
  lemma {:induction false} SplitAt(s: string, c: char, i: int)
    requires i == IndexOf(s, c) && i >= 0
    ensures Split(s, c) == [s[..i]] + Split(s[i + 1..], c)
    ensures s == s[..i] + [c] + s[i + 1..]
  { }

  lemma {:induction false} SplitPiecesFree(s: string, c: char)
    ensures forall k :: 0 <= k < |Split(s, c)| ==> c !in Split(s, c)[k]
    decreases |s|
  {
    var i := IndexOf(s, c);
    if i >= 0 {
      var head, tail := s[..i], s[i + 1..];
      SplitAt(s, c, i);
      assert c !in head by {
        forall k | 0 <= k < i ensures head[k] != c { }
      }
      SplitPiecesFree(tail, c);
      var pieces := Split(s, c);
      forall k | 0 <= k < |pieces| ensures c !in pieces[k] {
        if k > 0 { assert pieces[k] == Split(tail, c)[k - 1]; }
      }
    } else {
      assert c !in s by {
        forall k | 0 <= k < |s| ensures s[k] != c { }
      }
    }
  }

  /** implode then explode gives the pieces back when none holds the separator. */
  lemma {:induction false} SplitJoin(xs: seq<string>, c: char)
    requires |xs| >= 1 && forall k :: 0 <= k < |xs| ==> c !in xs[k]
    ensures Split(Join(xs, [c]), c) == xs
  {
    var s := Join(xs, [c]);
    if |xs| == 1 {
      assert IndexOf(s, c) == -1;
    } else {
      var rest := Join(xs[1..], [c]);
      assert s == xs[0] + [c] + rest;
      var i := IndexOf(s, c);
      assert s[|xs[0]|] == c;
      assert forall k :: 0 <= k < |xs[0]| ==> s[k] == xs[0][k];
      assert i == |xs[0]|;
      assert s[..i] == xs[0];
      assert s[i + 1..] == rest;
      SplitJoin(xs[1..], c);
    }
  }

  /** PHP `array_slice($xs, -n)`: the last `n` elements, or all when there are fewer. */
  function LastN<T>(xs: seq<T>, n: nat): (r: seq<T>)
    ensures |r| == if |xs| < n then |xs| else n
    ensures forall k :: 0 <= k < |r| ==> r[k] == xs[|xs| - |r| + k]
  {
    if |xs| <= n then xs else xs[|xs| - n..]
  }

  /** PHP `array_slice($xs, 0, $length)`: a negative length drops that many elements from the end. */
  function SliceFront<T>(xs: seq<T>, length: int): (r: seq<T>)
    ensures |r| == if length >= 0 then (if length < |xs| then length else |xs|)
                   else (if |xs| + length > 0 then |xs| + length else 0)
    ensures r == xs[..|r|]
  {
    if length >= 0 then (if length < |xs| then xs[..length] else xs)
    else if |xs| + length > 0 then xs[..|xs| + length] else []
  }

  /** The elements of `xs` satisfying `p`, in order (`array_filter` followed by `array_values`, or a WHERE clause). */
  function Filter<T(!new)>(xs: seq<T>, p: T -> bool): (r: seq<T>)
    ensures |r| <= |xs|
    ensures forall x :: x in r <==> x in xs && p(x)
  {
    if xs == [] then []
    else Filter(xs[..|xs| - 1], p) + (if p(xs[|xs| - 1]) then [xs[|xs| - 1]] else [])
  }

  lemma {:induction false} FilterAppend<T(!new)>(a: seq<T>, b: seq<T>, p: T -> bool)
    ensures Filter(a + b, p) == Filter(a, p) + Filter(b, p)
    decreases |b|
  {
    if b == [] {
      assert a + b == a;
    } else {
      var b', last := b[..|b| - 1], b[|b| - 1];
      assert (a + b)[..|a + b| - 1] == a + b' && (a + b)[|a + b| - 1] == last;
      FilterAppend(a, b', p);
      var tail := if p(last) then [last] else [];
      assert Filter(a + b, p) == Filter(a + b', p) + tail;
      assert Filter(b, p) == Filter(b', p) + tail;
    }
  }

  /** ASCII lower-casing, as PHP 8.2+ `strtolower` does. */
  function ToLower(s: string): (r: string)
    ensures |r| == |s|
    ensures forall k :: 0 <= k < |s| ==> r[k] == LowerChar(s[k])
  {
    if s == [] then [] else [LowerChar(s[0])] + ToLower(s[1..])
  }

  function LowerChar(c: char): char {
    if 'A' <= c <= 'Z' then (c as int + 32) as char else c
  }

  /** Length of the leading run of characters in class `p`. */
  function RunLength(s: string, p: char -> bool): (k: nat)
    ensures k <= |s|
    ensures forall i :: 0 <= i < k ==> p(s[i])
    ensures k < |s| ==> !p(s[k])
  {
    if s != [] && p(s[0]) then
      var k := RunLength(s[1..], p);
      assert forall i :: 1 <= i < k + 1 ==> s[i] == s[1..][i - 1];
      k + 1
    else 0
  }

  /**
   * PCRE `preg_replace('/c{min,}/', repl, s)` for a character class `c`: every
   * maximal run of at least `min` class characters becomes `repl`; shorter runs stay.
   */
  function CollapseRuns(s: string, p: char -> bool, min: nat, repl: string): string
    decreases |s|
  {
    if s == [] then []
    else if p(s[0]) then
      var k := RunLength(s, p);
      (if k >= min then repl else s[..k]) + CollapseRuns(s[k..], p, min, repl)
    else [s[0]] + CollapseRuns(s[1..], p, min, repl)
  }

  /** One step of the collapse: the first run (or the first character) and the rest. */
  lemma {:induction false} CollapseRunsStep(s: string, p: char -> bool, min: nat, repl: string) returns (n: nat, head: string)
    requires s != []
    ensures 0 < n <= |s|
    ensures CollapseRuns(s, p, min, repl) == head + CollapseRuns(s[n..], p, min, repl)
    ensures p(s[0]) ==> (forall j :: 0 <= j < n ==> p(s[j])) && (n < |s| ==> !p(s[n]))
                        && head == (if n >= min then repl else s[..n])
    ensures !p(s[0]) ==> n == 1 && head == [s[0]]
  {
    if p(s[0]) {
      n := RunLength(s, p);
      head := if n >= min then repl else s[..n];
    } else {
      n := 1;
      head := [s[0]];
    }
  }

  /** The result never holds `min` class characters in a row when `repl` has fewer. */
  lemma {:induction false} CollapseRunsBounded(s: string, p: char -> bool, min: nat, repl: string, i: nat)
    requires 0 < min
    requires |repl| < min && forall j :: 0 <= j < |repl| ==> p(repl[j])
    requires i + min <= |CollapseRuns(s, p, min, repl)|
    ensures exists j :: i <= j < i + min && !p(CollapseRuns(s, p, min, repl)[j])
    decreases |s|
  {
    var r := CollapseRuns(s, p, min, repl);
    var n, head := CollapseRunsStep(s, p, min, repl);
    var tail := CollapseRuns(s[n..], p, min, repl);
    if p(s[0]) && i < |head| {
      // the run is shorter than `min` once written, and the tail starts with the character that ended it
      assert |head| < min;
      assert n < |s|;
      CollapseRunsFirst(s[n..], p, min, repl);
      assert !p(r[|head|]);
    } else if !p(s[0]) && i == 0 {
      assert !p(r[0]);
    } else {
      CollapseRunsBounded(s[n..], p, min, repl, i - |head|);
      var j :| i - |head| <= j < i - |head| + min && !p(tail[j]);
      assert r[j + |head|] == tail[j];
    }
  }

  /** Input that starts outside the class starts the result unchanged. */
  lemma {:induction false} CollapseRunsFirst(s: string, p: char -> bool, min: nat, repl: string)
    requires s != [] && !p(s[0])
    ensures CollapseRuns(s, p, min, repl) != [] && CollapseRuns(s, p, min, repl)[0] == s[0]
  { }

  /** No two characters of class `q` stand next to each other. */
  predicate Apart(s: string, q: char -> bool) {
    forall j :: 0 <= j < |s| - 1 ==> !(q(s[j]) && q(s[j + 1]))
  }

  /**
   * With `min` = 1 and a one-character class `repl`, every run becomes that
   * character: no other class character is left and no two class characters touch.
   */
  lemma {:induction false} CollapseRunsSingles(s: string, p: char -> bool, repl: string)
    requires |repl| == 1 && p(repl[0])
    ensures forall j :: 0 <= j < |CollapseRuns(s, p, 1, repl)| && p(CollapseRuns(s, p, 1, repl)[j]) ==> CollapseRuns(s, p, 1, repl)[j] == repl[0]
    ensures Apart(CollapseRuns(s, p, 1, repl), p)
    decreases |s|
  {
    if s != [] {
      var r := CollapseRuns(s, p, 1, repl);
      var n := if p(s[0]) then RunLength(s, p) else 1;
      var tail := CollapseRuns(s[n..], p, 1, repl);
      var head := if p(s[0]) then repl else [s[0]];
      assert r == head + tail;
      assert p(r[0]) ==> r[0] == repl[0];
      CollapseRunsSingles(s[n..], p, repl);
      if p(s[0]) && tail != [] {
        // the tail starts with the character that ended the run
        assert tail[0] == s[n] && !p(r[1]);
      }
      forall j | 0 <= j < |r| && p(r[j]) ensures r[j] == repl[0] {
        if j > 0 { assert r[j] == tail[j - 1]; assert p(tail[j - 1]); assert tail[j - 1] == repl[0]; }
        else { assert r[0] == repl[0]; }
      }
      forall j | 0 <= j < |r| - 1 ensures !(p(r[j]) && p(r[j + 1])) {
        if j > 0 { assert r[j] == tail[j - 1] && r[j + 1] == tail[j]; assert !(p(tail[j - 1]) && p(tail[j])); }
        else { assert !(p(r[0]) && p(r[1])); }
      }
    }
  }

  /** Every character of the result comes from the input or from `repl`. */
  lemma {:induction false} CollapseRunsFrom(s: string, p: char -> bool, min: nat, repl: string)
    ensures forall c :: c in CollapseRuns(s, p, min, repl) ==> c in s || c in repl
    decreases |s|
  {
    if s != [] {
      if p(s[0]) {
        var k := RunLength(s, p);
        CollapseRunsFrom(s[k..], p, min, repl);
        assert forall c :: c in s[..k] || c in s[k..] ==> c in s;
      } else {
        CollapseRunsFrom(s[1..], p, min, repl);
        assert forall c :: c in s[1..] ==> c in s;
      }
    }
  }

  /** The result starts with the input's first character or, when that run was replaced, with `repl`'s. */
  lemma {:induction false} CollapseRunsHead(s: string, p: char -> bool, min: nat, repl: string)
    requires repl != [] && s != []
    ensures var r := CollapseRuns(s, p, min, repl);
      r != [] && (r[0] == s[0] || (p(s[0]) && r[0] == repl[0]))
  { }

  /**
   * Characters of a class `q` that never touch in the input still never touch
   * after collapsing runs of a class `p` disjoint from `q` into a `repl` free of `q`.
   */
  lemma {:induction false} CollapseRunsKeepsApart(s: string, p: char -> bool, min: nat, repl: string, q: char -> bool)
    requires forall c :: !(p(c) && q(c))
    requires repl != [] && forall j :: 0 <= j < |repl| ==> !q(repl[j])
    requires Apart(s, q)
    ensures Apart(CollapseRuns(s, p, min, repl), q)
    decreases |s|
  {
    if s != [] {
      var r := CollapseRuns(s, p, min, repl);
      if p(s[0]) {
        var k := RunLength(s, p);
        var head := if k >= min then repl else s[..k];
        var tail := CollapseRuns(s[k..], p, min, repl);
        assert r == head + tail;
        CollapseRunsKeepsApart(s[k..], p, min, repl, q);
        forall j | 0 <= j < |r| - 1 ensures !(q(r[j]) && q(r[j + 1])) {
          if j < |head| {
            if k >= min {
              assert r[j] == repl[j];
            } else {
              assert r[j] == s[j] && p(s[j]);
            }
          } else {
            assert r[j] == tail[j - |head|] && r[j + 1] == tail[j - |head| + 1];
          }
        }
      } else {
        var tail := CollapseRuns(s[1..], p, min, repl);
        assert r == [s[0]] + tail;
        CollapseRunsKeepsApart(s[1..], p, min, repl, q);
        if tail != [] && q(s[0]) {
          CollapseRunsHead(s[1..], p, min, repl);
          assert !q(s[1]);
        }
        assert forall j :: 1 <= j < |r| ==> r[j] == tail[j - 1];
      }
    }
  }

  /** Decimal text of a natural number. */
  function NatToString(n: nat): (r: string)
    ensures r != []
    ensures forall k :: 0 <= k < |r| ==> '0' <= r[k] <= '9'
  {
    if n < 10 then [DigitChar(n)] else NatToString(n / 10) + [DigitChar(n % 10)]
  }

  function DigitChar(d: nat): (c: char)
    requires d < 10
    ensures '0' <= c <= '9'
  {
    ('0' as int + d) as char
  }

  /** PHP's string conversion of an integer. */
  function IntToString(i: int): string {
    if i < 0 then "-" + NatToString(-i) else NatToString(i)
  }
}

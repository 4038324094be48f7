/** String helpers with the JavaScript meaning the source relies on:
  * `includes`, `startsWith`, `trim`, `split` on one character, `join`, and
  * `toUpperCase`/`toLowerCase` restricted to ASCII letters. */
module Strings {
  import opened Wrappers

  predicate IsLowerAscii(c: char) { 'a' <= c <= 'z' }
  predicate IsUpperAscii(c: char) { 'A' <= c <= 'Z' }
  predicate IsDigit(c: char) { '0' <= c <= '9' }
  predicate IsAlnumAscii(c: char) { IsLowerAscii(c) || IsUpperAscii(c) || IsDigit(c) }

  /** The characters matched by `\s` and removed by `String.prototype.trim`. */
  predicate IsSpace(c: char)
  {
    c == ' ' || c == '\t' || c == '\n' || c == '\r' || c == '\U{B}' || c == '\U{C}'
    || c == '\U{A0}' || c == '\U{1680}' || ('\U{2000}' <= c <= '\U{200A}')
    || c == '\U{2028}' || c == '\U{2029}' || c == '\U{202F}' || c == '\U{205F}'
    || c == '\U{3000}' || c == '\U{FEFF}'
  }

  function UpperChar(c: char): (r: char)
    ensures !IsLowerAscii(r)
    ensures IsLowerAscii(c) || r == c
  {
    if IsLowerAscii(c) then (c as int - 32) as char else c
  }

  function LowerChar(c: char): (r: char)
    ensures !IsUpperAscii(r)
    ensures IsUpperAscii(c) || r == c
  {
    if IsUpperAscii(c) then (c as int + 32) as char else c
  }

  function Upper(s: string): (r: string)
    ensures |r| == |s|
  {
    seq(|s|, i requires 0 <= i < |s| => UpperChar(s[i]))
  }

  function Lower(s: string): (r: string)
    ensures |r| == |s|
  {
    seq(|s|, i requires 0 <= i < |s| => LowerChar(s[i]))
  }

  /** No ASCII lower-case letter: what `toUpperCase` leaves. */
  predicate IsUpperCased(s: string) { forall i :: 0 <= i < |s| ==> !IsLowerAscii(s[i]) }

  predicate PrefixAt(s: string, p: string, i: int)
  {
    0 <= i && i + |p| <= |s| && s[i..i + |p|] == p
  }

  predicate StartsWith(s: string, p: string) { PrefixAt(s, p, 0) }

  predicate EndsWith(s: string, p: string) { |p| <= |s| && s[|s| - |p|..] == p }

  /** `s.includes(p)`. */
  predicate Contains(s: string, p: string)
  {
    exists i :: 0 <= i <= |s| && PrefixAt(s, p, i)
  }

  lemma ContainsTransitive(c: string, b: string, a: string)
    requires Contains(c, b) && Contains(b, a)
    ensures Contains(c, a)
  {
    var i :| 0 <= i <= |c| && PrefixAt(c, b, i);
    var j :| 0 <= j <= |b| && PrefixAt(b, a, j);
    assert forall k :: 0 <= k < |a| ==> c[i + j + k] == b[j + k] == a[k] by {
      forall k | 0 <= k < |a| ensures c[i + j + k] == b[j + k] == a[k] {
        assert c[i..i + |b|][j + k] == b[j + k];
        assert b[j..j + |a|][k] == a[k];
      }
    }
    assert c[i + j..i + j + |a|] == a;
    assert PrefixAt(c, a, i + j);
  }

  /** An occurrence inside a slice is an occurrence in the whole text. */
  lemma PrefixAtSlice(s: string, p: string, from: nat, to: nat, i: nat)
    requires from <= to <= |s|
    ensures PrefixAt(s[from..to], p, i) ==> PrefixAt(s, p, from + i)
  {
    var b := s[from..to];
    if PrefixAt(b, p, i) {
      forall k | 0 <= k < |p|
        ensures s[from + i + k] == p[k]
      {
        assert b[i..i + |p|][k] == p[k];
        assert b[i + k] == s[from + i + k];
      }
      assert s[from + i..from + i + |p|] == p;
    }
  }

  lemma ContainsSelf(s: string)
    ensures Contains(s, s) && Contains(s, "")
  {
    assert PrefixAt(s, s, 0);
    assert PrefixAt(s, "", 0);
  }

  lemma ContainsLength(s: string, p: string)
    requires Contains(s, p)
    ensures |p| <= |s|
  {
  }

  /** The first index at or after `from` where `p` occurs, as `indexOf`. */
  function IndexOfFrom(s: string, p: string, from: nat): (r: Option<nat>)
    decreases |s| - from
    ensures r.Some? ==> from <= r.value && PrefixAt(s, p, r.value)
    ensures r.Some? ==> forall k :: from <= k < r.value ==> !PrefixAt(s, p, k)
    ensures r.None? ==> forall k :: from <= k ==> !PrefixAt(s, p, k)
  {
    if from + |p| > |s| then None
    else if s[from..from + |p|] == p then Some(from)
    else IndexOfFrom(s, p, from + 1)
  }

  /** An occurrence with none before it, from `from` on, is what `indexOf` finds. */
  lemma IndexOfFromAt(s: string, p: string, from: nat, k: nat)
    requires from <= k && PrefixAt(s, p, k)
    requires forall i :: from <= i < k ==> !PrefixAt(s, p, i)
    ensures IndexOfFrom(s, p, from) == Some(k)
  {
  }

  /** The last index where `p` occurs, as `lastIndexOf`. */
  function LastIndexOf(s: string, p: string): (r: Option<nat>)
    ensures r.Some? ==> PrefixAt(s, p, r.value)
    ensures r.Some? ==> forall k :: r.value < k ==> !PrefixAt(s, p, k)
    ensures r.None? ==> forall k :: !PrefixAt(s, p, k)
  {
    LastIndexBelow(s, p, |s| + 1)
  }

  function LastIndexBelow(s: string, p: string, bound: nat): (r: Option<nat>)
    ensures r.Some? ==> r.value < bound && PrefixAt(s, p, r.value)
    ensures r.Some? ==> forall k :: r.value < k < bound ==> !PrefixAt(s, p, k)
    ensures r.None? ==> forall k :: k < bound ==> !PrefixAt(s, p, k)
  {
    if bound == 0 then None
    else if PrefixAt(s, p, bound - 1) then Some(bound - 1)
    else LastIndexBelow(s, p, bound - 1)
  }

  function TrimStart(s: string): (r: string)
    ensures |r| <= |s| && r == s[|s| - |r|..]
    ensures |r| > 0 ==> !IsSpace(r[0])
    ensures forall i :: 0 <= i < |s| - |r| ==> IsSpace(s[i])
  {
    if |s| > 0 && IsSpace(s[0]) then TrimStart(s[1..]) else s
  }

  function TrimEnd(s: string): (r: string)
    ensures |r| <= |s| && r == s[..|r|]
    ensures |r| > 0 ==> !IsSpace(r[|r| - 1])
    ensures forall i :: |r| <= i < |s| ==> IsSpace(s[i])
  {
    if |s| > 0 && IsSpace(s[|s| - 1]) then TrimEnd(s[..|s| - 1]) else s
  }

  /** `s.trim()`: the longest middle part without white space at either end. */
  function Trim(s: string): (r: string)
    ensures |r| <= |s|
    ensures |r| > 0 ==> !IsSpace(r[0]) && !IsSpace(r[|r| - 1])
  {
    TrimEnd(TrimStart(s))
  }

  predicate NoSpaceAtEnds(s: string)
  {
    |s| > 0 ==> !IsSpace(s[0]) && !IsSpace(s[|s| - 1])
  }

  lemma TrimIdempotent(s: string)
    requires NoSpaceAtEnds(s)
    ensures Trim(s) == s
  {
  }

  /** `s.split(c)` for a one-character separator. */
  function Split(s: string, c: char): (r: seq<string>)
    ensures |r| >= 1
    ensures forall k :: 0 <= k < |r| ==> c !in r[k]
    decreases |s|
  {
    if c !in s then [s]
    else
      var i := FirstIndexOfChar(s, c);
      [s[..i]] + Split(s[i + 1..], c)
  }

  function FirstIndexOfChar(s: string, c: char): (i: nat)
    requires c in s
    ensures i < |s| && s[i] == c && c !in s[..i]
  {
    if s[0] == c then 0 else 1 + FirstIndexOfChar(s[1..], c)
  }

  /** `parts.join(sep)`. */
  function Join(parts: seq<string>, sep: string): string
  {
    if |parts| == 0 then ""
    else if |parts| == 1 then parts[0]
    else parts[0] + sep + Join(parts[1..], sep)
  }

  lemma {:induction false} JoinSplit(s: string, c: char)
    ensures Join(Split(s, c), [c]) == s
    decreases |s|
  {
    if c in s {
      var i := FirstIndexOfChar(s, c);
      JoinSplit(s[i + 1..], c);
      var rest := Split(s[i + 1..], c);
      var p := [s[..i]] + rest;
      assert Split(s, c) == p;
      assert p[0] == s[..i] && p[1..] == rest && |p| >= 2;
      assert Join(p, [c]) == s[..i] + [c] + Join(rest, [c]);
      assert s == s[..i] + [c] + s[i + 1..];
    }
  }

  /** A `c` with none before it is the one FirstIndexOfChar finds. */
  lemma {:induction false} FirstIndexOfCharAt(s: string, c: char, k: nat)
    requires k < |s| && s[k] == c && c !in s[..k]
    ensures FirstIndexOfChar(s, c) == k
  {
    if k > 0 {
      assert s[0] == s[..k][0];
      assert s[1..][..k - 1] == s[1..k];
      assert forall j :: 0 <= j < k - 1 ==> s[1..k][j] == s[..k][j + 1];
      FirstIndexOfCharAt(s[1..], c, k - 1);
    }
  }

  /** Splitting a join recovers the parts when no part holds the separator. */
  lemma {:induction false} SplitJoin(parts: seq<string>, c: char)
    requires |parts| > 0
    requires forall k :: 0 <= k < |parts| ==> c !in parts[k]
    ensures Split(Join(parts, [c]), c) == parts
    decreases |parts|
  {
    if |parts| == 1 {
      assert Join(parts, [c]) == parts[0];
    } else {
      var rest := Join(parts[1..], [c]);
      assert Join(parts, [c]) == parts[0] + [c] + rest;
      SplitAtFirst(parts[0], rest, c);
      SplitJoin(parts[1..], c);
      assert parts == [parts[0]] + parts[1..];
    }
  }

  /** Splitting at a first separator. */
  lemma SplitAtFirst(head: string, rest: string, c: char)
    requires c !in head
    ensures Split(head + [c] + rest, c) == [head] + Split(rest, c)
  {
    var s := head + [c] + rest;
    var n := |head|;
    assert s[..n] == head;
    assert s[n] == c;
    FirstIndexOfCharAt(s, c, n);
    assert s[n + 1..] == rest;
  }

  /** The characters of `s` that satisfy `keep`, in order: `s.replace(/[^…]/g, '')`. */
  function FilterChars(s: string, keep: char -> bool): (r: string)
    ensures |r| <= |s|
  {
    if |s| == 0 then ""
    else if keep(s[0]) then [s[0]] + FilterChars(s[1..], keep)
    else FilterChars(s[1..], keep)
  }

  /** `s.replace(/[^…]/g, by)`: every character outside the class becomes `subst`. */
  function ReplaceChars(s: string, keep: char -> bool, subst: char): (r: string)
    ensures |r| == |s|
  {
    seq(|s|, i requires 0 <= i < |s| => if keep(s[i]) then s[i] else subst)
  }

  /** Every kept character satisfies `keep`, and a character satisfying
    * `keep` is kept. */
  lemma {:induction false} FilterCharsSpec(s: string, keep: char -> bool)
    ensures forall i :: 0 <= i < |FilterChars(s, keep)| ==> keep(FilterChars(s, keep)[i])
    ensures forall c :: c in s && keep(c) ==> c in FilterChars(s, keep)
    ensures forall c :: c in FilterChars(s, keep) ==> c in s
  {
    if |s| > 0 {
      FilterCharsSpec(s[1..], keep);
      assert forall c :: c in s ==> c == s[0] || c in s[1..];
    }
  }

  /** A string whose characters all satisfy `keep` is left unchanged. */
  lemma {:induction false} FilterCharsAllKept(s: string, keep: char -> bool)
    requires forall i :: 0 <= i < |s| ==> keep(s[i])
    ensures FilterChars(s, keep) == s
  {
    if |s| > 0 {
      FilterCharsAllKept(s[1..], keep);
      assert s == [s[0]] + s[1..];
    }
  }

  /** `v || d` on an optional string value: an absent value and the empty
    * string are both falsy. */
  function OrDefault(v: Option<string>, d: string): (r: string)
    ensures r == d || (v.Some? && r == v.value)
    ensures v.Some? && |v.value| > 0 ==> r == v.value
    ensures (v.None? || |v.value| == 0) ==> r == d
  {
    if v.Some? && |v.value| > 0 then v.value else d
  }

  /** A template-literal rendering of an optional field. */
  function Shown(v: Option<string>): string
  {
    if v.Some? then v.value else "undefined"
  }

  /** `s.replace(pat, rep)` with a string pattern: only the first
    * occurrence is replaced; an empty pattern matches at the start. */
  function ReplaceFirst(s: string, pat: string, rep: string): (r: string)
    ensures IndexOfFrom(s, pat, 0).None? ==> r == s
    ensures IndexOfFrom(s, pat, 0).Some? ==>
      var i := IndexOfFrom(s, pat, 0).value;
      i + |pat| <= |s| && r == s[..i] + rep + s[i + |pat|..]
  {
    match IndexOfFrom(s, pat, 0)
    case None => s
    case Some(i) => s[..i] + rep + s[i + |pat|..]
  }

  lemma StartsWithConcat(a: string, b: string)
    ensures StartsWith(a + b, a)
  {
    assert (a + b)[..|a|] == a;
  }

  /** A prefix stays a prefix when more is appended. */
  lemma StartsWithExtend(s: string, p: string, e: string)
    requires StartsWith(s, p)
    ensures StartsWith(s + e, p)
  {
    assert (s + e)[..|p|] == s[..|p|];
  }

  lemma EndsWithConcat(a: string, b: string)
    ensures EndsWith(a + b, b)
  {
    assert (a + b)[|a|..] == b;
  }

  /** A template literal: the fixed pieces with the values between them. */
  function Fill(pieces: seq<string>, values: seq<string>): string
    requires |pieces| == |values| + 1
  {
    if |values| == 0 then pieces[0] else pieces[0] + values[0] + Fill(pieces[1..], values[1..])
  }

  // Rendering a list one entry after another (the forEach `+=` loops)

  /** The renderings of `xs`, concatenated in order. */
  function Rendered<T>(xs: seq<T>, render: T -> string): string
  {
    if |xs| == 0 then "" else Rendered(xs[..|xs| - 1], render) + render(xs[|xs| - 1])
  }

  /** `xs.forEach(x => text += render(x))`. */
  method AppendRendered<T>(text0: string, xs: seq<T>, render: T -> string) returns (text: string)
    ensures text == text0 + Rendered(xs, render)
  {
    text := text0;
    var i := 0;
    while i < |xs|
      invariant 0 <= i <= |xs|
      invariant text == text0 + Rendered(xs[..i], render)
    {
      assert xs[..i + 1][..i] == xs[..i];
      text := text + render(xs[i]);
      i := i + 1;
    }
    assert xs[..i] == xs;
  }

  /** Rendering distributes over concatenation. */
  lemma {:induction false} RenderedAppend<T>(xs: seq<T>, ys: seq<T>, render: T -> string)
    ensures Rendered(xs + ys, render) == Rendered(xs, render) + Rendered(ys, render)
    decreases |ys|
  {
    if |ys| > 0 {
      var n := |ys| - 1;
      assert (xs + ys)[..|xs + ys| - 1] == xs + ys[..n];
      assert (xs + ys)[|xs + ys| - 1] == ys[n];
      RenderedAppend(xs, ys[..n], render);
    } else {
      assert xs + ys == xs;
    }
  }

  /** Every entry's rendering appears, between those of the entries before
    * it and those after it. */
  lemma RenderedAt<T>(xs: seq<T>, k: nat, render: T -> string)
    requires k < |xs|
    ensures Rendered(xs, render) == Rendered(xs[..k], render) + render(xs[k]) + Rendered(xs[k + 1..], render)
  {
    var front, back := xs[..k + 1], xs[k + 1..];
    assert xs == front + back;
    RenderedAppend(front, back, render);
    assert front[..k] == xs[..k];
    assert Rendered(front, render) == Rendered(xs[..k], render) + render(xs[k]);
  }

  /** Hence the rendering of every entry occurs in the text. */
  lemma RenderedContains<T>(xs: seq<T>, k: nat, render: T -> string)
    requires k < |xs|
    ensures Contains(Rendered(xs, render), render(xs[k]))
  {
    RenderedAt(xs, k, render);
    var before := Rendered(xs[..k], render);
    var whole := Rendered(xs, render);
    assert whole[|before|..|before| + |render(xs[k])|] == render(xs[k]);
    assert PrefixAt(whole, render(xs[k]), |before|);
  }

  /** The number of `c` characters in `s`. */
  function CharCount(s: string, c: char): nat
  {
    if |s| == 0 then 0 else CharCount(s[..|s| - 1], c) + (if s[|s| - 1] == c then 1 else 0)
  }

  lemma {:induction false} CharCountAppend(a: string, b: string, c: char)
    ensures CharCount(a + b, c) == CharCount(a, c) + CharCount(b, c)
    decreases |b|
  {
    if |b| > 0 {
      assert (a + b)[..|a + b| - 1] == a + b[..|b| - 1];
      assert (a + b)[|a + b| - 1] == b[|b| - 1];
      CharCountAppend(a, b[..|b| - 1], c);
    } else {
      assert a + b == a;
    }
  }

  lemma {:induction false} CharCountAbsent(s: string, c: char)
    requires c !in s
    ensures CharCount(s, c) == 0
  {
    if |s| > 0 {
      assert s[..|s| - 1] + [s[|s| - 1]] == s;
      CharCountAbsent(s[..|s| - 1], c);
    }
  }

  /** A text found in `mid` is found with anything around it. */
  lemma ContainsWithin(mid: string, p: string, before: string, after: string)
    requires Contains(mid, p)
    ensures Contains(before + mid + after, p)
  {
    var i :| 0 <= i <= |mid| && PrefixAt(mid, p, i);
    var s := before + mid + after;
    assert s[|before| + i..|before| + i + |p|] == mid[i..i + |p|];
    assert PrefixAt(s, p, |before| + i);
  }

  /** A text found in one of five pieces is found in their concatenation. */
  lemma WithinFive(a: string, b: string, c: string, d: string, e: string, p: string)
    requires Contains(a, p) || Contains(b, p) || Contains(c, p) || Contains(d, p) || Contains(e, p)
    ensures Contains(a + b + c + d + e, p)
  {
    if Contains(a, p) {
      ContainsWithin(a, p, "", b + c + d + e);
      assert "" + a + (b + c + d + e) == a + b + c + d + e;
    } else if Contains(b, p) {
      ContainsWithin(b, p, a, c + d + e);
      assert a + b + (c + d + e) == a + b + c + d + e;
    } else if Contains(c, p) {
      ContainsWithin(c, p, a + b, d + e);
      assert a + b + c + (d + e) == a + b + c + d + e;
    } else if Contains(d, p) {
      ContainsWithin(d, p, a + b + c, e);
    } else {
      ContainsWithin(e, p, a + b + c + d, "");
      assert a + b + c + d + e + "" == a + b + c + d + e;
    }
  }
}

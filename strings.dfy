/**
 * String helpers shared by the model: the JavaScript notions of white space,
 * trimming, ASCII lower-casing, substring search, splitting and joining, and
 * `String.prototype.replace` with a string pattern.
 */
module Strings {

  /** ECMAScript WhiteSpace and LineTerminator code points, as used by `trim` and `\s`. */
  predicate IsWhitespace(c: char) {
    c == ' ' || c == '\t' || c == '\n' || c == '\r' || c == '\U{000B}' || c == '\U{000C}'
    || c == '\U{00A0}' || c == '\U{1680}' || ('\U{2000}' <= c <= '\U{200A}')
    || c == '\U{2028}' || c == '\U{2029}' || c == '\U{202F}' || c == '\U{205F}'
    || c == '\U{3000}' || c == '\U{FEFF}'
  }

  function TrimStart(s: string): (r: string)
    ensures |r| <= |s| && r == s[|s| - |r|..]
    ensures r != [] ==> !IsWhitespace(r[0])
    ensures forall i :: 0 <= i < |s| - |r| ==> IsWhitespace(s[i])
  {
    if s != [] && IsWhitespace(s[0]) then
      var r := TrimStart(s[1..]);
      assert s[1..][|s| - 1 - |r|..] == s[|s| - |r|..];
      assert forall i :: 1 <= i < |s| - |r| ==> s[i] == s[1..][i - 1];
      r
    else s
  }

  function TrimEnd(s: string): (r: string)
    ensures |r| <= |s| && r == s[..|r|]
    ensures r != [] ==> !IsWhitespace(r[|r| - 1])
    ensures forall i :: |r| <= i < |s| ==> IsWhitespace(s[i])
  {
    if s != [] && IsWhitespace(s[|s| - 1]) then TrimEnd(s[..|s| - 1]) else s
  }

  /** `String.prototype.trim`. */
  function Trim(s: string): (r: string)
    ensures |r| <= |s|
    ensures r != [] ==> !IsWhitespace(r[0]) && !IsWhitespace(r[|r| - 1])
  {
    TrimEnd(TrimStart(s))
  }

  function LowerChar(c: char): char {
    if 'A' <= c <= 'Z' then (c as int + 32) as char else c
  }

  /** `toLowerCase`, restricted to the ASCII letters. */
  function Lower(s: string): (r: string)
    ensures |r| == |s|
    ensures forall i :: 0 <= i < |s| ==> r[i] == LowerChar(s[i])
  {
    seq(|s|, i requires 0 <= i < |s| => LowerChar(s[i]))
  }

  /** `p` occurs in `s` at position `i`. */
  predicate At(s: string, p: string, i: nat) {
    i + |p| <= |s| && s[i..i + |p|] == p
  }

  /** First occurrence of `p` in `s` at or after `from` (`indexOf`). */
  function IndexFrom(s: string, p: string, from: nat): (r: Option<nat>)
    decreases |s| - from
    ensures r.Some? ==> from <= r.value && At(s, p, r.value)
    ensures r.Some? ==> forall j :: from <= j < r.value ==> !At(s, p, j)
    ensures r.None? ==> forall j :: from <= j ==> !At(s, p, j)
  {
    if from + |p| > |s| then None
    else if At(s, p, from) then Some(from)
    else IndexFrom(s, p, from + 1)
  }

  function IndexOf(s: string, p: string): Option<nat> {
    IndexFrom(s, p, 0)
  }

  /** Last occurrence of `p` in `s` starting at or before `k`. */
  function LastAtOrBefore(s: string, p: string, k: nat): (r: Option<nat>)
    ensures r.Some? ==> r.value <= k && At(s, p, r.value)
    ensures r.Some? ==> forall j :: r.value < j <= k ==> !At(s, p, j)
    ensures r.None? ==> forall j :: 0 <= j <= k ==> !At(s, p, j)
  {
    if At(s, p, k) then Some(k) else if k == 0 then None else LastAtOrBefore(s, p, k - 1)
  }

  /** `lastIndexOf`. */
  function LastIndexOf(s: string, p: string): (r: Option<nat>)
    ensures r.Some? ==> At(s, p, r.value) && forall j :: r.value < j ==> !At(s, p, j)
    ensures r.None? ==> forall j :: !At(s, p, j)
  {
    LastAtOrBefore(s, p, |s|)
  }

  /** `String.prototype.includes`. */
  predicate Contains(s: string, p: string) {
    IndexOf(s, p).Some?
  }

  lemma ContainsAt(s: string, p: string, i: nat)
    requires At(s, p, i)
    ensures Contains(s, p)
  {
  }

  predicate StartsWith(s: string, p: string) {
    At(s, p, 0)
  }

  predicate EndsWith(s: string, p: string) {
    |p| <= |s| && s[|s| - |p|..] == p
  }

  /**
   * The replacement text of `String.prototype.replace` with a string pattern:
   * `$$`, `$&`, `` $` `` and `$'` are expanded, every other `$` is literal.
   */
  function Substitute(rep: string, matched: string, before: string, after: string): string
  {
    if |rep| >= 2 && rep[0] == '$' && rep[1] == '$' then "$" + Substitute(rep[2..], matched, before, after)
    else if |rep| >= 2 && rep[0] == '$' && rep[1] == '&' then matched + Substitute(rep[2..], matched, before, after)
    else if |rep| >= 2 && rep[0] == '$' && rep[1] == '`' then before + Substitute(rep[2..], matched, before, after)
    else if |rep| >= 2 && rep[0] == '$' && rep[1] == '\'' then after + Substitute(rep[2..], matched, before, after)
    else if rep == [] then []
    else [rep[0]] + Substitute(rep[1..], matched, before, after)
  }

  lemma {:induction false} SubstituteDollarFree(rep: string, matched: string, before: string, after: string)
    requires '$' !in rep
    ensures Substitute(rep, matched, before, after) == rep
  {
    if rep != [] {
      SubstituteDollarFree(rep[1..], matched, before, after);
    }
  }

  /** `s.replace(p, rep)`: only the first occurrence is replaced. */
  function ReplaceFirst(s: string, p: string, rep: string): (r: string)
    ensures IndexOf(s, p).None? ==> r == s
    ensures IndexOf(s, p).Some? && '$' !in rep ==>
      var i := IndexOf(s, p).value; r == s[..i] + rep + s[i + |p|..]
  {
    match IndexOf(s, p)
    case None => s
    case Some(i) =>
      var sub := Substitute(rep, p, s[..i], s[i + |p|..]);
      assert '$' !in rep ==> sub == rep by {
        if '$' !in rep { SubstituteDollarFree(rep, p, s[..i], s[i + |p|..]); }
      }
      s[..i] + sub + s[i + |p|..]
  }

  /** `s.replaceAll(c, rep)` for a one-character pattern. */
  function ReplaceChar(s: string, c: char, rep: string): (r: string)
  {
    if s == [] then [] else (if s[0] == c then rep else [s[0]]) + ReplaceChar(s[1..], c, rep)
  }

  lemma {:induction false} ReplaceCharAppend(a: string, b: string, c: char, rep: string)
    ensures ReplaceChar(a + b, c, rep) == ReplaceChar(a, c, rep) + ReplaceChar(b, c, rep)
  {
    if a != [] {
      assert (a + b)[0] == a[0] && (a + b)[1..] == a[1..] + b;
      ReplaceCharAppend(a[1..], b, c, rep);
    } else {
      assert a + b == b;
    }
  }

  lemma ReplaceCharSingle(c: char, d: char, rep: string)
    ensures ReplaceChar([c], d, rep) == if c == d then rep else [c]
  {
    assert [c][1..] == [];
  }

  lemma {:induction false} ReplaceCharAbsent(s: string, c: char, rep: string)
    requires c !in s
    ensures ReplaceChar(s, c, rep) == s
  {
    if s != [] {
      ReplaceCharAbsent(s[1..], c, rep);
    }
  }

  lemma {:induction false} ReplaceCharRemoves(s: string, c: char, rep: string)
    requires c !in rep
    ensures c !in ReplaceChar(s, c, rep)
  {
    if s != [] {
      ReplaceCharRemoves(s[1..], c, rep);
    }
  }

  lemma {:induction false} ReplaceCharKeepsAbsent(s: string, c: char, rep: string, d: char)
    requires d !in s && d !in rep
    ensures d !in ReplaceChar(s, c, rep)
  {
    if s != [] {
      ReplaceCharKeepsAbsent(s[1..], c, rep, d);
    }
  }

  /** `s.split(c)` for a one-character separator (an empty string gives `[""]`). */
  function Split(s: string, c: char): (r: seq<string>)
    ensures |r| >= 1
    ensures forall i :: 0 <= i < |r| ==> c !in r[i]
  {
    if s == [] then [""]
    else
      var rest := Split(s[1..], c);
      if s[0] == c then [""] + rest else [[s[0]] + rest[0]] + rest[1..]
  }

  /** `xs.join(sep)`. */
  function Join(xs: seq<string>, sep: string): string {
    if xs == [] then "" else if |xs| == 1 then xs[0] else xs[0] + sep + Join(xs[1..], sep)
  }

  /** Two strings that agree before position `k` and differ there are ordered by that character. */
  lemma {:induction false} StrLessAt(a: string, b: string, k: nat)
    requires k < |a| && k < |b| && a[..k] == b[..k] && a[k] < b[k]
    ensures StrLess(a, b)
  {
    if k > 0 {
      assert a[0] == a[..k][0] == b[..k][0] == b[0];
      assert a[1..][..k - 1] == a[1..k] == b[1..k] == b[1..][..k - 1];
      StrLessAt(a[1..], b[1..], k - 1);
    }
  }

  lemma {:induction false} StrLessAsymmetric(a: string, b: string)
    requires StrLess(a, b)
    ensures !StrLess(b, a)
  {
    if a != [] && b != [] && a[0] == b[0] {
      StrLessAsymmetric(a[1..], b[1..]);
    }
  }

  /** A piece without the separator splits into itself. */
  lemma {:induction false} SplitWhole(a: string, c: char)
    requires c !in a
    ensures Split(a, c) == [a]
  {
    if a != [] {
      SplitWhole(a[1..], c);
      assert [a[0]] + a[1..] == a;
    }
  }

  /** Splitting at the first separator. */
  lemma {:induction false} SplitFirst(a: string, c: char, rest: string)
    requires c !in a
    ensures Split(a + [c] + rest, c) == [a] + Split(rest, c)
  {
    if a == [] {
      assert a + [c] + rest == [c] + rest;
    } else {
      SplitFirst(a[1..], c, rest);
      assert (a + [c] + rest)[1..] == a[1..] + [c] + rest;
      assert (a + [c] + rest)[0] == a[0] != c;
      assert [a[0]] + a[1..] == a;
    }
  }

  /** Joining pieces that do not contain the separator, then splitting, gives the pieces back. */
  lemma {:induction false} SplitJoin(xs: seq<string>, c: char)
    requires |xs| >= 1 && forall i :: 0 <= i < |xs| ==> c !in xs[i]
    ensures Split(Join(xs, [c]), c) == xs
  {
    if |xs| == 1 {
      SplitWhole(xs[0], c);
    } else {
      SplitJoin(xs[1..], c);
      SplitFirst(xs[0], c, Join(xs[1..], [c]));
      assert [xs[0]] + xs[1..] == xs;
    }
  }

  function Concat(xs: seq<string>): string {
    if xs == [] then "" else xs[0] + Concat(xs[1..])
  }

  lemma {:induction false} ConcatAppend(xs: seq<string>, ys: seq<string>)
    ensures Concat(xs + ys) == Concat(xs) + Concat(ys)
  {
    if xs != [] {
      assert (xs + ys)[0] == xs[0] && (xs + ys)[1..] == xs[1..] + ys;
      ConcatAppend(xs[1..], ys);
    } else {
      assert xs + ys == ys;
    }
  }

  lemma ConcatSnoc(xs: seq<string>, x: string)
    ensures Concat(xs + [x]) == Concat(xs) + x
  {
    ConcatAppend(xs, [x]);
    assert Concat([x]) == x + Concat([]);
  }

  lemma PrefixStartsWith(p: string, rest: string)
    ensures StartsWith(p + rest, p)
  {
    assert (p + rest)[..|p|] == p;
  }

  lemma StartsWithExtend(s: string, p: string, rest: string)
    requires StartsWith(s, p)
    ensures StartsWith(s + rest, p)
  {
    assert (s + rest)[..|p|] == s[..|p|];
  }

  lemma EndsWithAppended(rest: string, p: string)
    ensures EndsWith(rest + p, p) && |rest + p| >= |p|
  {
    assert (rest + p)[|rest|..] == p;
  }

  lemma EndsWithExtend(rest: string, s: string, p: string)
    requires EndsWith(s, p)
    ensures EndsWith(rest + s, p)
  {
    assert (rest + s)[|rest + s| - |p|..] == s[|s| - |p|..];
  }

  lemma ContainsLeft(pre: string, s: string, p: string)
    requires Contains(s, p)
    ensures Contains(pre + s, p)
  {
    var i := IndexOf(s, p).value;
    assert (pre + s)[|pre| + i..|pre| + i + |p|] == s[i..i + |p|];
    ContainsAt(pre + s, p, |pre| + i);
  }

  lemma ContainsRight(s: string, post: string, p: string)
    requires Contains(s, p)
    ensures Contains(s + post, p)
  {
    var i := IndexOf(s, p).value;
    assert (s + post)[i..i + |p|] == s[i..i + |p|];
    ContainsAt(s + post, p, i);
  }

  /** Each piece of a concatenation occurs in it. */
  lemma {:induction false} ConcatContains(xs: seq<string>, i: nat)
    requires i < |xs|
    ensures Contains(Concat(xs), xs[i])
  {
    assert xs == xs[..i] + ([xs[i]] + xs[i + 1..]);
    ConcatAppend(xs[..i], [xs[i]] + xs[i + 1..]);
    ConcatAppend([xs[i]], xs[i + 1..]);
    assert Concat([xs[i]]) == xs[i] by {
      assert [xs[i]][1..] == [];
    }
    assert Concat(xs) == Concat(xs[..i]) + xs[i] + Concat(xs[i + 1..]);
    ContainsMiddle(Concat(xs[..i]), xs[i], Concat(xs[i + 1..]));
  }

  lemma ContainsMiddle(a: string, b: string, c: string)
    ensures Contains(a + b + c, b)
  {
    assert (a + b + c)[|a|..|a| + |b|] == b;
    ContainsAt(a + b + c, b, |a|);
  }

  /** Containment carries over to any text around the container. */
  lemma ContainsWithin(a: string, s: string, c: string, p: string)
    requires Contains(s, p)
    ensures Contains(a + s + c, p)
  {
    var i := IndexOf(s, p).value;
    assert (a + s + c)[|a| + i..|a| + i + |p|] == s[i..i + |p|];
    ContainsAt(a + s + c, p, |a| + i);
  }

  /** The leading run of non-white-space characters. */
  function TakeWord(s: string): (r: string)
    ensures |r| <= |s| && r == s[..|r|]
    ensures forall i :: 0 <= i < |r| ==> !IsWhitespace(r[i])
    ensures |r| < |s| ==> IsWhitespace(s[|r|])
  {
    if s == [] || IsWhitespace(s[0]) then [] else [s[0]] + TakeWord(s[1..])
  }

  predicate IsWord(w: string) {
    w != [] && forall j :: 0 <= j < |w| ==> !IsWhitespace(w[j])
  }

  /** `s.split(/\s+/).filter(Boolean)`: the maximal runs of non-white-space. */
  function Words(s: string): (r: seq<string>)
    decreases |s|
    ensures forall i :: 0 <= i < |r| ==> IsWord(r[i])
  {
    var t := TrimStart(s);
    if t == [] then []
    else
      var w := TakeWord(t);
      [w] + Words(t[|w|..])
  }

  lemma {:induction false} WordsOfBlank(s: string)
    requires forall i :: 0 <= i < |s| ==> IsWhitespace(s[i])
    ensures Words(s) == []
  {
    if s != [] {
      assert IsWhitespace(s[0]);
      WordsOfBlank(s[1..]);
    }
  }

  function DigitChar(d: nat): char
    requires d < 10
  {
    "0123456789"[d]
  }

  /** Decimal rendering of a natural number, as `String(n)`. */
  function NatToString(n: nat): (r: string)
    ensures |r| >= 1
    ensures forall i :: 0 <= i < |r| ==> '0' <= r[i] <= '9'
  {
    if n < 10 then [DigitChar(n)] else NatToString(n / 10) + [DigitChar(n % 10)]
  }

  function IntToString(n: int): string {
    if n < 0 then "-" + NatToString(-n) else NatToString(n)
  }

  /** `s.slice(0, end)` with JavaScript's treatment of a negative end. */
  function SliceTo(s: string, end: int): (r: string)
    ensures |r| <= |s| && r == s[..|r|]
    ensures end >= 0 ==> |r| == if end < |s| then end else |s|
  {
    var e := if end < 0 then (if |s| + end < 0 then 0 else |s| + end) else (if end > |s| then |s| else end);
    s[..e]
  }

  /** JavaScript's `s.length`: UTF-16 code units, two for a character above U+FFFF. */
  function Utf16Length(s: string): (n: nat)
    ensures |s| <= n <= 2 * |s|
  {
    if s == [] then 0 else (if s[0] as int > 0xFFFF then 2 else 1) + Utf16Length(s[1..])
  }

  /** `a < b` on strings: lexicographic order of the characters, a proper prefix first. */
  predicate StrLess(a: string, b: string) {
    if a == [] then b != []
    else if b == [] then false
    else if a[0] != b[0] then a[0] < b[0]
    else StrLess(a[1..], b[1..])
  }

  /** Trimming yields a piece of the input. */
  lemma TrimContained(s: string)
    ensures Contains(s, Trim(s))
  {
    var t := TrimStart(s);
    var r := TrimEnd(t);
    var k := |s| - |t|;
    assert r == t[..|r|] && t == s[k..];
    PrefixOfSuffix(s, k, |r|);
    ContainsAt(s, r, k);
  }

  lemma PrefixOfSuffix(s: string, k: nat, n: nat)
    requires k + n <= |s|
    ensures s[k..][..n] == s[k..k + n]
  {
  }

  /** A string that neither starts nor ends with white space is its own trim. */
  lemma TrimKeeps(s: string)
    requires s != [] && !IsWhitespace(s[0]) && !IsWhitespace(s[|s| - 1])
    ensures Trim(s) == s
  {
    assert TrimStart(s) == s;
  }

  /** An occurrence inside a piece of `s` is an occurrence in `s`. */
  lemma ContainsSlice(s: string, i: nat, k: nat, p: string)
    requires i <= k <= |s| && Contains(s[i..k], p)
    ensures Contains(s, p)
  {
    var q := s[i..k];
    var j := IndexOf(q, p).value;
    assert At(q, p, j);
    forall m | 0 <= m < |p| ensures s[i + j + m] == p[m] {
      assert q[j..j + |p|][m] == p[m];
      assert q[j + m] == s[i + j + m];
    }
    assert s[i + j..i + j + |p|] == p;
    ContainsAt(s, p, i + j);
  }

  datatype Option<+T> = None | Some(value: T)
}

/** String helpers with the semantics of the Python and JavaScript built-ins the
    source relies on (`str.strip`, `String.prototype.trim`, `str.join`, `in`). */
module Text {

  /** Characters for which Python's `str.isspace()` holds, i.e. what `str.strip()` removes. */
  predicate IsPyWhitespace(c: char) {
    ('\U{9}' <= c <= '\U{D}') || ('\U{1C}' <= c <= '\U{1F}') || c == ' ' || c == '\U{85}'
    || c == '\U{A0}' || c == '\U{1680}' || ('\U{2000}' <= c <= '\U{200A}') || c == '\U{2028}'
    || c == '\U{2029}' || c == '\U{202F}' || c == '\U{205F}' || c == '\U{3000}'
  }

  /** White space and line terminators removed by JavaScript's `String.prototype.trim()`. */
  predicate IsJsWhitespace(c: char) {
    ('\U{9}' <= c <= '\U{D}') || c == ' ' || c == '\U{A0}' || c == '\U{1680}'
    || ('\U{2000}' <= c <= '\U{200A}') || c == '\U{2028}' || c == '\U{2029}' || c == '\U{202F}'
    || c == '\U{205F}' || c == '\U{3000}' || c == '\U{FEFF}'
  }

  /** Index of the first character that is not white space (|s| if there is none). */
  function LeadingSpace(s: string, ws: char -> bool): (k: nat)
    ensures k <= |s|
    ensures forall i :: 0 <= i < k ==> ws(s[i])
    ensures k < |s| ==> !ws(s[k])
  {
    if |s| > 0 && ws(s[0]) then 1 + LeadingSpace(s[1..], ws) else 0
  }

  /** End of the text once trailing white space is cut off. */
  function TrailingCut(s: string, ws: char -> bool): (k: nat)
    ensures k <= |s|
    ensures forall i :: k <= i < |s| ==> ws(s[i])
    ensures k > 0 ==> !ws(s[k - 1])
  {
    if |s| > 0 && ws(s[|s| - 1]) then TrailingCut(s[..|s| - 1], ws) else |s|
  }

  /** `s.strip()` for the white space `ws`. */
  function Strip(s: string, ws: char -> bool): (r: string)
    ensures |r| <= |s|
    ensures r == [] <==> forall i :: 0 <= i < |s| ==> ws(s[i])
    ensures r != [] ==> !ws(r[0]) && !ws(r[|r| - 1])
    ensures r != [] ==> exists i, j :: 0 <= i <= j <= |s| && r == s[i..j]
  {
    var i := LeadingSpace(s, ws);
    if i == |s| then [] else
      var j := TrailingCut(s, ws);
      assert !ws(s[i]);
      assert i < j;
      assert s[i..j][0] == s[i];
      s[i..j]
  }

  /** Stripping a string that starts and ends with non-white-space leaves it unchanged. */
  lemma StripOfStripped(s: string, ws: char -> bool)
    requires s == [] || (!ws(s[0]) && !ws(s[|s| - 1]))
    ensures Strip(s, ws) == s
  {
  }

  lemma {:induction false} LeadingSpaceOfPadded(a: string, rest: string, ws: char -> bool)
    requires forall i :: 0 <= i < |a| ==> ws(a[i])
    requires rest != [] && !ws(rest[0])
    ensures LeadingSpace(a + rest, ws) == |a|
  {
    if a == [] {
      assert a + rest == rest;
    } else {
      assert (a + rest)[1..] == a[1..] + rest;
      LeadingSpaceOfPadded(a[1..], rest, ws);
    }
  }

  lemma {:induction false} TrailingCutOfPadded(front: string, b: string, ws: char -> bool)
    requires forall i :: 0 <= i < |b| ==> ws(b[i])
    requires front != [] && !ws(front[|front| - 1])
    ensures TrailingCut(front + b, ws) == |front|
  {
    if b == [] {
      assert front + b == front;
    } else {
      var s := front + b;
      assert s[|s| - 1] == b[|b| - 1];
      assert s[..|s| - 1] == front + b[..|b| - 1];
      TrailingCutOfPadded(front, b[..|b| - 1], ws);
    }
  }

  /** White space around a text whose ends are not white space is exactly what strip removes. */
  lemma StripPadded(a: string, m: string, b: string, ws: char -> bool)
    requires forall i :: 0 <= i < |a| ==> ws(a[i])
    requires forall i :: 0 <= i < |b| ==> ws(b[i])
    requires m != [] && !ws(m[0]) && !ws(m[|m| - 1])
    ensures Strip(a + m + b, ws) == m
  {
    var s := a + m + b;
    assert s == a + (m + b);
    LeadingSpaceOfPadded(a, m + b, ws);
    assert s == (a + m) + b;
    TrailingCutOfPadded(a + m, b, ws);
    assert s[|a|..|a| + |m|] == m;
  }

  /** Python's `strip()`. */
  function PyStrip(s: string): string { Strip(s, IsPyWhitespace) }

  /** JavaScript's `trim()`. */
  function JsTrim(s: string): string { Strip(s, IsJsWhitespace) }

  /** `s[:n]`: the first `n` characters, or all of `s` when it is shorter. */
  function Take(s: string, n: nat): (r: string)
    ensures |r| == if |s| < n then |s| else n
    ensures r == s[..|r|]
  {
    if |s| <= n then s else s[..n]
  }

  /** ASCII lower-casing of one character. */
  function LowerChar(c: char): char {
    if 'A' <= c <= 'Z' then (c as int + 32) as char else c
  }

  /** `s.lower()` on the ASCII letters (other characters are kept). */
  function Lower(s: string): (r: string)
    ensures |r| == |s|
    ensures forall i :: 0 <= i < |s| ==> r[i] == LowerChar(s[i])
  {
    seq(|s|, i requires 0 <= i < |s| => LowerChar(s[i]))
  }

  predicate IsPrefix(p: string, s: string) {
    |p| <= |s| && s[..|p|] == p
  }

  predicate IsSuffix(p: string, s: string) {
    |p| <= |s| && s[|s| - |p|..] == p
  }

  /** `sub` occurs in `s` starting at position `i`. */
  predicate OccursAt(s: string, sub: string, i: nat) {
    i + |sub| <= |s| && s[i..i + |sub|] == sub
  }

  /** Python's `sub in s` on strings. */
  predicate Contains(s: string, sub: string)
  {
    IsPrefix(sub, s) || (|s| > 0 && Contains(s[1..], sub))
  }

  lemma {:induction false} ContainsAt(s: string, sub: string, k: nat)
    requires k + |sub| <= |s| && s[k..k + |sub|] == sub
    ensures Contains(s, sub)
  {
    if k > 0 {
      assert s[1..][k - 1..k - 1 + |sub|] == sub;
      ContainsAt(s[1..], sub, k - 1);
    } else {
      assert s[..|sub|] == sub;
    }
  }

  /** Every string occurs in any concatenation that has it as a middle part. */
  lemma ContainsInConcat(a: string, b: string, c: string)
    ensures Contains(a + b + c, b)
  {
    assert (a + b + c)[|a|..|a| + |b|] == b;
    ContainsAt(a + b + c, b, |a|);
  }

  /** A string contained in a middle part is contained in the whole concatenation. */
  lemma ContainsWithin(a: string, m: string, c: string, sub: string)
    requires Contains(m, sub)
    ensures Contains(a + m + c, sub)
  {
    ContainsWitness(m, sub);
    var i: nat :| OccursAt(m, sub, i);
    var whole := a + m + c;
    assert whole[|a| + i..|a| + i + |sub|] == m[i..i + |sub|];
    ContainsAt(whole, sub, |a| + i);
  }

  /** `sep.join(parts)`. */
  function Join(parts: seq<string>, sep: string): string
  {
    if |parts| == 0 then ""
    else if |parts| == 1 then parts[0]
    else parts[0] + sep + Join(parts[1..], sep)
  }

  /** Every element of a joined list occurs in the joined text. */
  lemma {:induction false} JoinContains(parts: seq<string>, sep: string, k: nat)
    requires k < |parts|
    ensures Contains(Join(parts, sep), parts[k])
  {
    if |parts| == 1 {
      ContainsInConcat("", parts[0], "");
      assert "" + parts[0] + "" == parts[0];
    } else if k == 0 {
      ContainsInConcat("", parts[0], sep + Join(parts[1..], sep));
      assert "" + parts[0] + (sep + Join(parts[1..], sep)) == Join(parts, sep);
    } else {
      JoinContains(parts[1..], sep, k - 1);
      assert parts[1..][k - 1] == parts[k];
      var rest := Join(parts[1..], sep);
      ContainsWithin(parts[0] + sep, rest, "", parts[k]);
      assert parts[0] + sep + rest + "" == Join(parts, sep);
    }
  }

  /** The position at which a contained string occurs. */
  lemma {:induction false} ContainsWitness(s: string, sub: string)
    requires Contains(s, sub)
    ensures exists i: nat :: OccursAt(s, sub, i)
  {
    if IsPrefix(sub, s) {
      assert OccursAt(s, sub, 0);
    } else {
      ContainsWitness(s[1..], sub);
      var i: nat :| OccursAt(s[1..], sub, i);
      assert s[i + 1..i + 1 + |sub|] == s[1..][i..i + |sub|];
      assert OccursAt(s, sub, i + 1);
    }
  }

  /** `s.replace(a, b)` for single characters. */
  function ReplaceChar(s: string, a: char, b: char): (r: string)
    ensures |r| == |s|
    ensures forall i :: 0 <= i < |s| ==> r[i] == if s[i] == a then b else s[i]
  {
    seq(|s|, i requires 0 <= i < |s| => if s[i] == a then b else s[i])
  }

  /** `s.rstrip(c)` for one character `c`. */
  function RStripChar(s: string, c: char): (r: string)
    ensures IsPrefix(r, s)
    ensures r == [] || r[|r| - 1] != c
    ensures forall i :: |r| <= i < |s| ==> s[i] == c
  {
    if |s| > 0 && s[|s| - 1] == c then RStripChar(s[..|s| - 1], c) else s
  }

  /** `s.split(sep)` for one separator character. */
  function Split(s: string, sep: char): (r: seq<string>)
    ensures |r| > 0
  {
    if |s| == 0 then [""]
    else
      var rest := Split(s[1..], sep);
      if s[0] == sep then [""] + rest else [[s[0]] + rest[0]] + rest[1..]
  }

  /** Python's `int(x)` on a float: truncation toward zero. */
  function Trunc(x: real): (n: int)
    ensures x >= 0.0 ==> n == x.Floor
    ensures x < 0.0 ==> n == -((-x).Floor)
  {
    if x >= 0.0 then x.Floor else -((-x).Floor)
  }

  /** Truncation keeps the sign of `x` and stays within one of it, on the side of zero. */
  lemma TruncTowardZero(x: real)
    ensures x >= 0.0 ==> 0 <= Trunc(x) && Trunc(x) as real <= x < Trunc(x) as real + 1.0
    ensures x < 0.0 ==> Trunc(x) <= 0 && Trunc(x) as real - 1.0 < x <= Trunc(x) as real
  {
  }

  /** The decimal digits of a natural number, as Python's `str(n)`. */
  function NatToString(n: nat): (r: string)
    ensures |r| > 0
    ensures forall i :: 0 <= i < |r| ==> '0' <= r[i] <= '9'
  {
    if n < 10 then [DigitChar(n)] else NatToString(n / 10) + [DigitChar(n % 10)]
  }

  function DigitChar(d: nat): (c: char)
    requires d < 10
    ensures '0' <= c <= '9'
  {
    ('0' as int + d) as char
  }

  /** `a` is `b` with some elements left out, the rest in their order. */
  predicate IsSubsequence<T(==)>(a: seq<T>, b: seq<T>)
    decreases |b|
  {
    if b == [] then a == []
    else (a != [] && a[0] == b[0] && IsSubsequence(a[1..], b[1..])) || IsSubsequence(a, b[1..])
  }

  /** The elements of `s` that `keep` accepts, in order (a list comprehension with a condition). */
  function Filter<T(==,!new)>(s: seq<T>, keep: T -> bool): (r: seq<T>)
    ensures forall x :: x in r <==> x in s && keep(x)
    ensures |r| <= |s|
    ensures Distinct(s) ==> Distinct(r)
  {
    if s == [] then []
    else
      var rest := Filter(s[1..], keep);
      assert s == [s[0]] + s[1..];
      if keep(s[0]) then [s[0]] + rest else rest
  }

  /** A filter keeps the accepted elements in their order, each as often as it occurs. */
  lemma {:induction false} FilterOrder<T(!new)>(s: seq<T>, keep: T -> bool)
    ensures IsSubsequence(Filter(s, keep), s)
    ensures forall x :: multiset(Filter(s, keep))[x] == if keep(x) then multiset(s)[x] else 0
  {
    if s != [] {
      FilterOrder(s[1..], keep);
      var rest := Filter(s[1..], keep);
      var r := Filter(s, keep);
      assert s == [s[0]] + s[1..];
      assert multiset(s) == multiset{s[0]} + multiset(s[1..]);
      if keep(s[0]) {
        assert r == [s[0]] + rest;
        assert r[1..] == rest;
        assert multiset(r) == multiset{s[0]} + multiset(rest);
      } else {
        assert r == rest;
      }
    }
  }

  /** Filtering a sequence extended by one element extends the filtered sequence by that element
      exactly when it is accepted. */
  /** A filter over one more element of a prefix. */
  lemma FilterStep<T(!new)>(s: seq<T>, i: nat, keep: T -> bool)
    requires i < |s|
    ensures Filter(s[..i + 1], keep) == Filter(s[..i], keep) + (if keep(s[i]) then [s[i]] else [])
  {
    assert s[..i + 1] == s[..i] + [s[i]];
    FilterAppend(s[..i], s[i], keep);
  }

  lemma {:induction false} FilterAppend<T(!new)>(s: seq<T>, x: T, keep: T -> bool)
    ensures Filter(s + [x], keep) == Filter(s, keep) + (if keep(x) then [x] else [])
  {
    if s == [] {
      assert [] + [x] == [x];
      assert [x][1..] == [];
    } else {
      assert (s + [x])[0] == s[0];
      assert (s + [x])[1..] == s[1..] + [x];
      FilterAppend(s[1..], x, keep);
    }
  }

  /** No element occurs twice. */
  predicate Distinct<T(==)>(s: seq<T>) {
    forall i, j :: 0 <= i < j < |s| ==> s[i] != s[j]
  }
}

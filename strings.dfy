/**
 * The handful of Python string operations the bot relies on, stated over
 * `seq<char>`: prefix tests, `str.split(sep)[0]`, `str.split(c)[-1]`,
 * `str.isspace`, `int(...)` / `str(...)` on integers, the thousands
 * separator of `"{:,}".format(n)`, and concatenation of rendered blocks.
 */
module Strings {
  import opened Wrappers

  /** `s.startswith(p)` */
  predicate StartsWith(s: string, p: string) {
    |p| <= |s| && s[..|p|] == p
  }

  /** `sep` occurs in `s` at position `i`. */
  predicate OccursAt(s: string, sep: string, i: nat) {
    i + |sep| <= |s| && s[i..i + |sep|] == sep
  }

  /** `s.find(sep)` for a non-empty separator: the first position where `sep` occurs. */
  function Find(s: string, sep: string): (r: Option<nat>)
    requires |sep| > 0
    ensures r.Some? ==> OccursAt(s, sep, r.value)
    ensures r.Some? ==> forall j: nat :: j < r.value ==> !OccursAt(s, sep, j)
    ensures r.None? ==> forall j: nat :: !OccursAt(s, sep, j)
    decreases |s|
  {
    if |s| < |sep| then None
    else if s[..|sep|] == sep then Some(0)
    else
      var rest := Find(s[1..], sep);
      assert forall j: nat :: 0 < j ==> (OccursAt(s, sep, j) <==> OccursAt(s[1..], sep, j - 1)) by {
        forall j: nat | 0 < j ensures OccursAt(s, sep, j) <==> OccursAt(s[1..], sep, j - 1) {
          if j + |sep| <= |s| {
            assert s[1..][j - 1..j - 1 + |sep|] == s[j..j + |sep|];
          }
        }
      }
      if rest.None? then None else Some(rest.value + 1)
  }

  /** `sep in s` (true for the empty separator, as in Python). */
  predicate Contains(s: string, sep: string) {
    |sep| == 0 || Find(s, sep).Some?
  }

  /** `s.split(sep)[0]` for a non-empty separator: everything before the first `sep`. */
  function SplitHead(s: string, sep: string): (r: string)
    requires |sep| > 0
    ensures StartsWith(s, r)
    ensures forall j: nat :: j < |r| ==> !OccursAt(s, sep, j)
    ensures r == s || OccursAt(s, sep, |r|)
  {
    match Find(s, sep)
    case Some(i) => s[..i]
    case None => s
  }

  /** `s.split(c)[-1]`: everything after the last `c`, or all of `s` when `c` does not occur. */
  function AfterLast(s: string, c: char): (r: string)
    ensures c !in r
    ensures |r| <= |s| && r == s[|s| - |r|..]
    ensures r == s || s[|s| - |r| - 1] == c
  {
    if s == [] then []
    else if s[|s| - 1] == c then []
    else AfterLast(s[..|s| - 1], c) + [s[|s| - 1]]
  }

  /** `c.isspace()`: the characters Python classifies as whitespace. */
  predicate IsSpace(c: char) {
    ('\t' <= c <= '\r') || ('\U{1c}' <= c <= ' ') || c == '\U{85}' || c == '\U{a0}' || c == '\U{1680}'
    || ('\U{2000}' <= c <= '\U{200a}') || c == '\U{2028}' || c == '\U{2029}' || c == '\U{202f}'
    || c == '\U{205f}' || c == '\U{3000}'
  }

  /** `all(c.isspace() for c in s)`; true of the empty string. */
  predicate AllSpace(s: string) {
    forall i :: 0 <= i < |s| ==> IsSpace(s[i])
  }

  function UpperChar(ch: char): char {
    if 'a' <= ch <= 'z' then (ch as int - 32) as char else ch
  }

  function LowerChar(ch: char): char {
    if 'A' <= ch <= 'Z' then (ch as int + 32) as char else ch
  }

  /** `a.lower() == b.lower()` for texts whose letters are ASCII. */
  predicate EqualIgnoringCase(a: string, b: string) {
    |a| == |b| && forall i :: 0 <= i < |a| ==> LowerChar(a[i]) == LowerChar(b[i])
  }

  // ---------------------------------------------------------------------
  // Integers as decimal text
  // ---------------------------------------------------------------------

  predicate IsDigit(c: char) {
    '0' <= c <= '9'
  }

  predicate AllDigits(s: string) {
    forall i :: 0 <= i < |s| ==> IsDigit(s[i])
  }

  function DigitChar(d: nat): (c: char)
    requires d < 10
    ensures IsDigit(c) && c as int - '0' as int == d
  {
    ('0' as int + d) as char
  }

  /** `str(n)` for a natural number. */
  function NatToString(n: nat): (r: string)
    ensures |r| > 0 && AllDigits(r)
    ensures n < 10 <==> |r| == 1
  {
    if n < 10 then [DigitChar(n)] else NatToString(n / 10) + [DigitChar(n % 10)]
  }

  /** `str(i)` for any integer. */
  function IntToString(i: int): (r: string)
    ensures |r| > 0
  {
    if i < 0 then "-" + NatToString(-i) else NatToString(i)
  }

  /** The value of a string of decimal digits. */
  function DigitsValue(s: string): nat
    requires AllDigits(s)
  {
    if s == [] then 0 else DigitsValue(s[..|s| - 1]) * 10 + (s[|s| - 1] as int - '0' as int)
  }

  /**
   * `int(s)`, restricted to an optional sign followed by ASCII digits;
   * `None` is the `ValueError` Python raises for anything else.
   */
  function ParseInt(s: string): Option<int> {
    if |s| > 0 && (s[0] == '-' || s[0] == '+') then
      if |s| > 1 && AllDigits(s[1..]) then
        var v: int := DigitsValue(s[1..]);
        Some(if s[0] == '-' then -v else v)
      else None
    else if |s| > 0 && AllDigits(s) then Some(DigitsValue(s))
    else None
  }

  lemma {:induction false} DigitsValueOfNatToString(n: nat)
    ensures DigitsValue(NatToString(n)) == n
  {
    if n >= 10 {
      var r := NatToString(n);
      DigitsValueOfNatToString(n / 10);
      assert r[..|r| - 1] == NatToString(n / 10);
    }
  }

  /** A run of digits reads as its value, and as minus its value after a '-'. */
  lemma ParseIntDigits(d: string)
    requires |d| > 0 && AllDigits(d)
    ensures ParseInt(d) == Some(DigitsValue(d))
    ensures ParseInt("-" + d) == Some(-(DigitsValue(d) as int))
  {
    assert IsDigit(d[0]);
    var m := "-" + d;
    assert m[0] == '-' && m[1..] == d;
  }

  /** Reading back what `str` wrote gives the number again. */
  lemma {:induction false} ParseIntOfIntToString(i: int)
    ensures ParseInt(IntToString(i)) == Some(i)
  {
    var n: nat := if i < 0 then -i else i;
    DigitsValueOfNatToString(n);
    ParseIntDigits(NatToString(n));
  }

  /** Distinct integers are written differently, so `str(index)` keys never collide. */
  lemma IntToStringInjective(a: int, b: int)
    ensures IntToString(a) == IntToString(b) ==> a == b
  {
    ParseIntOfIntToString(a);
    ParseIntOfIntToString(b);
  }

  /** `s` with every occurrence of `c` removed. */
  function Without(s: string, c: char): (r: string)
    ensures c !in r
  {
    if s == [] then [] else Without(s[..|s| - 1], c) + (if s[|s| - 1] == c then [] else [s[|s| - 1]])
  }

  /** Inserts a space before every group of three digits counted from the right. */
  function GroupDigits(d: string): string {
    if |d| <= 3 then d else GroupDigits(d[..|d| - 3]) + " " + d[|d| - 3..]
  }

  lemma {:induction false} WithoutAppend(a: string, b: string, c: char)
    ensures Without(a + b, c) == Without(a, c) + Without(b, c)
  {
    if b != [] {
      var b', x := b[..|b| - 1], b[|b| - 1];
      WithoutAppend(a, b', c);
      assert a + b == (a + b') + [x];
      var piece := if x == c then [] else [x];
      calc {
        Without(a + b, c);
        Without(a + b', c) + piece;
        Without(a, c) + Without(b', c) + piece;
        Without(a, c) + (Without(b', c) + piece);
        Without(a, c) + Without(b, c);
      }
    } else {
      assert a + b == a;
    }
  }

  lemma {:induction false} WithoutAbsent(s: string, c: char)
    requires c !in s
    ensures Without(s, c) == s
  {
    if s != [] {
      WithoutAbsent(s[..|s| - 1], c);
    }
  }

  /** Removing the spaces of `a + " " + b` when `b` has none. */
  lemma WithoutSpaceJoin(a: string, b: string)
    requires ' ' !in b
    ensures Without(a + " " + b, ' ') == Without(a, ' ') + b
  {
    var a1 := a + " ";
    assert a1[..|a1| - 1] == a && a1[|a1| - 1] == ' ';
    assert Without(a1, ' ') == Without(a, ' ');
    WithoutAppend(a1, b, ' ');
    WithoutAbsent(b, ' ');
  }

  lemma {:induction false} GroupDigitsWithout(d: string)
    requires ' ' !in d
    ensures Without(GroupDigits(d), ' ') == d
  {
    if |d| <= 3 {
      WithoutAbsent(d, ' ');
    } else {
      var h, t := d[..|d| - 3], d[|d| - 3..];
      assert d == h + t;
      GroupDigitsWithout(h);
      WithoutSpaceJoin(GroupDigits(h), t);
    }
  }

  /** A space stands exactly at the positions whose distance from the end of `g` is a multiple of four. */
  predicate SpacedByFours(g: string) {
    forall k :: 0 <= k < |g| ==> (g[k] == ' ' <==> (|g| - k) % 4 == 0)
  }

  lemma {:induction false} GroupDigitsSpaces(d: string)
    requires ' ' !in d
    ensures SpacedByFours(GroupDigits(d))
  {
    var g := GroupDigits(d);
    if |d| <= 3 {
      forall k | 0 <= k < |g| ensures g[k] == ' ' <==> (|g| - k) % 4 == 0 {
        assert g[k] in d;
        assert 1 <= |g| - k <= 3;
      }
    } else {
      var h, t := d[..|d| - 3], d[|d| - 3..];
      assert ' ' !in h && ' ' !in t;
      GroupDigitsSpaces(h);
      var gh := GroupDigits(h);
      assert g == gh + " " + t;
      assert |g| == |gh| + 4;
      forall k | 0 <= k < |g| ensures g[k] == ' ' <==> (|g| - k) % 4 == 0 {
        if k < |gh| {
          assert g[k] == gh[k];
          var m := |gh| - k;
          assert |g| - k == m + 4;
          assert (m + 4) % 4 == m % 4;
          assert gh[k] == ' ' <==> m % 4 == 0;
        } else if k > |gh| {
          assert g[k] == t[k - |gh| - 1];
          assert g[k] in t;
          assert 1 <= |g| - k <= 3;
        } else {
          assert g[k] == ' ' && |g| - k == 4;
        }
      }
    }
  }

  /**
   * Thousands grouping: a space stands exactly at the positions whose
   * distance from the end is a multiple of four, and deleting the spaces
   * gives back the digits.
   */
  lemma GroupDigitsShape(d: string)
    requires ' ' !in d
    ensures Without(GroupDigits(d), ' ') == d
    ensures SpacedByFours(GroupDigits(d))
  {
    GroupDigitsWithout(d);
    GroupDigitsSpaces(d);
  }

  /** `"{:,}".format(n).replace(",", " ")` */
  function ThousandsSeparated(n: int): string {
    if n < 0 then "-" + GroupDigits(NatToString(-n)) else GroupDigits(NatToString(n))
  }

  // ---------------------------------------------------------------------
  // Building text from listings
  // ---------------------------------------------------------------------

  /** The text a loop `for i, x in enumerate(xs, start=1): response += f(i, x)` appends. */
  function ConcatNumbered<T>(xs: seq<T>, f: (nat, T) -> string): string {
    if xs == [] then "" else ConcatNumbered(xs[..|xs| - 1], f) + f(|xs|, xs[|xs| - 1])
  }

  /** `sep.join(parts)` */
  function JoinWith(parts: seq<string>, sep: string): string {
    if |parts| == 0 then ""
    else if |parts| == 1 then parts[0]
    else JoinWith(parts[..|parts| - 1], sep) + sep + parts[|parts| - 1]
  }
}

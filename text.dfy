/**
 * The string operations of Python that the core uses: `isspace`, `lower`,
 * `in` on strings, `startswith`, `count`, `split`, `join`, `strip` and slicing
 * by a prefix length.
 */
module Text {

  /** `c.isspace()`: the characters Python treats as whitespace (also what `\s` matches). */
  predicate IsSpace(c: char) {
    var n := c as int;
    (9 <= n <= 13) || (28 <= n <= 32) || n == 0x85 || n == 0xA0 || n == 0x1680 ||
    (0x2000 <= n <= 0x200A) || n == 0x2028 || n == 0x2029 || n == 0x202F ||
    n == 0x205F || n == 0x3000
  }

  /** An ASCII decimal digit. */
  predicate IsDigit(c: char) {
    '0' <= c <= '9'
  }

  /** Lower-case letter for an ASCII upper-case one. */
  function LowerChar(c: char): char {
    if 'A' <= c <= 'Z' then (c as int + 32) as char else c
  }

  /** `s.lower()` on ASCII letters. */
  function Lower(s: string): (r: string)
    ensures |r| == |s|
    ensures forall i :: 0 <= i < |s| ==> r[i] == LowerChar(s[i])
  {
    seq(|s|, i requires 0 <= i < |s| => LowerChar(s[i]))
  }

  lemma LowerAppend(a: string, b: string)
    ensures Lower(a + b) == Lower(a) + Lower(b)
  {
    assert forall i :: 0 <= i < |a + b| ==> Lower(a + b)[i] == (Lower(a) + Lower(b))[i];
  }

  /** `p` is a prefix of `s` (`s.startswith(p)`). */
  predicate StartsWith(s: string, p: string) {
    |p| <= |s| && s[..|p|] == p
  }

  /** `r` is the slice of `s` that starts at index `i`. */
  predicate SliceAt(s: string, r: string, i: int) {
    0 <= i <= |s| - |r| && s[i..i + |r|] == r
  }

  /** `k in s`: `k` occurs in `s` as a contiguous substring. */
  predicate Contains(s: string, k: string) {
    exists i :: 0 <= i <= |s| && SliceAt(s, k, i)
  }

  /** The empty string occurs in every string (`"" in s` is True). */
  lemma ContainsEmpty(s: string)
    ensures Contains(s, "")
  {
    assert SliceAt(s, "", 0);
  }

  /** `k` occurs in any string that has it between a prefix and a suffix. */
  lemma ContainsMiddle(a: string, k: string, b: string)
    ensures Contains(a + k + b, k)
  {
    assert SliceAt(a + k + b, k, |a|);
  }

  /** `s.count(c)` for a single character. */
  function CountChar(s: string, c: char): nat {
    if s == [] then 0 else (if s[0] == c then 1 else 0) + CountChar(s[1..], c)
  }

  /** `s[:k]` for a non-negative `k`. */
  function Prefix(s: string, k: nat): (r: string)
    ensures |r| == if k < |s| then k else |s|
    ensures r == s[..|r|]
  {
    if k < |s| then s[..k] else s
  }

  /** `sep.join(xs)`. */
  function Join(sep: string, xs: seq<string>): string {
    if |xs| == 0 then "" else if |xs| == 1 then xs[0] else xs[0] + sep + Join(sep, xs[1..])
  }

  /** What occurs in `t` occurs in every string that ends with `t`. */
  lemma ContainsAfter(a: string, t: string, k: string)
    requires Contains(t, k)
    ensures Contains(a + t, k)
  {
    var j :| 0 <= j <= |t| && SliceAt(t, k, j);
    assert (a + t)[|a| + j..|a| + j + |k|] == t[j..j + |k|];
    assert SliceAt(a + t, k, |a| + j);
  }

  /** Every joined piece occurs in the joined string. */
  lemma {:induction false} JoinContains(sep: string, xs: seq<string>, i: nat)
    requires i < |xs|
    ensures Contains(Join(sep, xs), xs[i])
  {
    if |xs| == 1 {
      ContainsMiddle("", xs[0], "");
      assert "" + xs[0] + "" == xs[0];
    } else if i == 0 {
      ContainsMiddle("", xs[0], sep + Join(sep, xs[1..]));
      assert "" + xs[0] + (sep + Join(sep, xs[1..])) == Join(sep, xs);
    } else {
      JoinContains(sep, xs[1..], i - 1);
      ContainsAfter(xs[0] + sep, Join(sep, xs[1..]), xs[i]);
    }
  }

  /** `s.split(c)` for a one-character separator: the pieces between the occurrences of `c`. */
  function Split(s: string, c: char): (r: seq<string>)
    ensures |r| == CountChar(s, c) + 1
    ensures forall i :: 0 <= i < |r| ==> c !in r[i]
  {
    if s == [] then [""]
    else if s[0] == c then [""] + Split(s[1..], c)
    else
      var rest := Split(s[1..], c);
      [[s[0]] + rest[0]] + rest[1..]
  }

  /** Splitting and then joining with the same separator gives the string back. */
  lemma {:induction false} JoinSplit(s: string, c: char)
    ensures Join([c], Split(s, c)) == s
  {
    if s == [] {
    } else if s[0] == c {
      JoinSplit(s[1..], c);
      assert s == [c] + s[1..];
    } else {
      JoinSplit(s[1..], c);
      var rest := Split(s[1..], c);
      if |rest| == 1 {
        assert s == [s[0]] + s[1..];
      } else {
        assert Join([c], rest) == rest[0] + [c] + Join([c], rest[1..]);
        assert s == [s[0]] + s[1..];
      }
    }
  }

  /** `s.lstrip()`: drops the leading whitespace. */
  function TrimLeft(s: string): (r: string)
    ensures |r| <= |s| && r == s[|s| - |r|..]
    ensures r == [] || !IsSpace(r[0])
    ensures s == [] || !IsSpace(s[0]) ==> r == s
    ensures forall i :: 0 <= i < |s| - |r| ==> IsSpace(s[i])
  {
    if s != [] && IsSpace(s[0]) then
      var r := TrimLeft(s[1..]);
      assert s[1..][|s| - 1 - |r|..] == s[|s| - |r|..];
      assert forall i :: 1 <= i < |s| - |r| ==> s[i] == s[1..][i - 1];
      r
    else s
  }

  /** `s.rstrip()`: drops the trailing whitespace. */
  function TrimRight(s: string): (r: string)
    ensures |r| <= |s| && r == s[..|r|]
    ensures r == [] || !IsSpace(r[|r| - 1])
    ensures s == [] || !IsSpace(s[|s| - 1]) ==> r == s
    ensures forall i :: |r| <= i < |s| ==> IsSpace(s[i])
  {
    if s != [] && IsSpace(s[|s| - 1]) then TrimRight(s[..|s| - 1]) else s
  }

  /** `s.strip()`: the longest slice of `s` that neither starts nor ends with whitespace. */
  function Strip(s: string): (r: string)
    ensures |r| <= |s|
    ensures r == [] || (!IsSpace(r[0]) && !IsSpace(r[|r| - 1]))
    ensures exists k :: SliceAt(s, r, k)
    ensures SliceAt(s, r, |s| - |TrimLeft(s)|)
    ensures AllSpace(s[..|s| - |TrimLeft(s)|])
    ensures AllSpace(s[|s| - |TrimLeft(s)| + |r|..])
  {
    var t := TrimLeft(s);
    var r := TrimRight(t);
    assert AllSpace(s[..|s| - |t|]);
    assert AllSpace(t[|r|..]);
    StripParts(s, t, r);
    r
  }

  /** A prefix cut from the left and then from the right is a slice with the cut parts around it. */
  lemma StripParts(s: string, t: string, r: string)
    requires |t| <= |s| && t == s[|s| - |t|..] && AllSpace(s[..|s| - |t|])
    requires |r| <= |t| && r == t[..|r|] && AllSpace(t[|r|..])
    ensures SliceAt(s, r, |s| - |t|)
    ensures AllSpace(s[..|s| - |t|])
    ensures AllSpace(s[|s| - |t| + |r|..])
  {
    var k := |s| - |t|;
    assert s[k + |r|..] == t[|r|..];
    assert s[k..k + |r|] == r;
  }

  /** Every character is whitespace (vacuously so for the empty string). */
  predicate AllSpace(s: string) {
    forall i :: 0 <= i < |s| ==> IsSpace(s[i])
  }

  /** No character is whitespace. */
  predicate NoSpace(s: string) {
    forall i :: 0 <= i < |s| ==> !IsSpace(s[i])
  }

  /** `s.split()` without a separator: the maximal runs of non-whitespace characters, in order. */
  function Words(s: string): (r: seq<string>)
    ensures forall i :: 0 <= i < |r| ==> r[i] != [] && NoSpace(r[i])
    ensures r == [] <==> AllSpace(s)
    ensures s != [] && !IsSpace(s[0]) ==> r != [] && r[0][0] == s[0]
  {
    if s == [] then []
    else if IsSpace(s[0]) then
      var r := Words(s[1..]);
      assert AllSpace(s[1..]) ==> AllSpace(s) by {
        assert forall i :: 1 <= i < |s| ==> s[i] == s[1..][i - 1];
      }
      r
    else
      var rest := Words(s[1..]);
      if s[1..] != [] && !IsSpace(s[1]) then [[s[0]] + rest[0]] + rest[1..]
      else [[s[0]]] + rest
  }

  /** Leading whitespace does not change the words. */
  lemma {:induction false} WordsTrimLeft(s: string)
    decreases |s|
    ensures Words(TrimLeft(s)) == Words(s)
  {
    if s != [] && IsSpace(s[0]) {
      WordsTrimLeft(s[1..]);
    }
  }

  /** Joining non-empty words without whitespace gives a text that starts and ends visibly. */
  lemma {:induction false} JoinWordsEnds(ws: seq<string>)
    requires forall i :: 0 <= i < |ws| ==> ws[i] != [] && NoSpace(ws[i])
    ensures Join(" ", ws) == [] <==> ws == []
    ensures Join(" ", ws) == [] || (!IsSpace(Join(" ", ws)[0]) && !IsSpace(Join(" ", ws)[|Join(" ", ws)| - 1]))
  {
    if |ws| > 1 {
      JoinWordsEnds(ws[1..]);
      var j := Join(" ", ws[1..]);
      assert Join(" ", ws) == ws[0] + " " + j;
      assert Join(" ", ws)[0] == ws[0][0];
    }
  }

  /** Joining a list that starts with `x`. */
  lemma JoinFront(sep: string, x: string, ws: seq<string>)
    requires ws != []
    ensures Join(sep, [x] + ws) == x + sep + Join(sep, ws)
  {
    assert ([x] + ws)[1..] == ws;
  }

  /** Growing the first piece by one character grows the joined text by that character. */
  lemma JoinGrowFirst(sep: string, c: char, ws: seq<string>)
    requires ws != []
    ensures Join(sep, [[c] + ws[0]] + ws[1..]) == [c] + Join(sep, ws)
  {
    if |ws| > 1 {
      JoinFront(sep, [c] + ws[0], ws[1..]);
    }
  }

  /** Whitespace in front of a text that starts visibly is what `lstrip` removes. */
  lemma {:induction false} TrimLeftPadded(a: string, m: string)
    requires AllSpace(a)
    requires m == [] || !IsSpace(m[0])
    ensures TrimLeft(a + m) == m
  {
    if a == [] {
      assert a + m == m;
    } else {
      TrimLeftPadded(a[1..], m);
      assert (a + m)[1..] == a[1..] + m;
    }
  }

  /** Whitespace behind a text that ends visibly is what `rstrip` removes. */
  lemma {:induction false} TrimRightPadded(m: string, b: string)
    requires AllSpace(b)
    requires m == [] || !IsSpace(m[|m| - 1])
    ensures TrimRight(m + b) == m
  {
    if b == [] {
      assert m + b == m;
    } else {
      TrimRightPadded(m, b[..|b| - 1]);
      assert (m + b)[..|m + b| - 1] == m + b[..|b| - 1];
    }
  }

  /** `strip` removes exactly the whitespace around a text that starts and ends visibly. */
  lemma StripPadded(a: string, m: string, b: string)
    requires AllSpace(a) && AllSpace(b)
    requires m == [] || (!IsSpace(m[0]) && !IsSpace(m[|m| - 1]))
    ensures Strip(a + m + b) == m
  {
    assert a + m + b == a + (m + b);
    if m == [] {
      assert AllSpace(a + b);
      TrimLeftPadded(a + b, []);
      assert a + m + b == a + b + [];
    } else {
      TrimLeftPadded(a, m + b);
      TrimRightPadded(m, b);
    }
  }

  /** Decimal digits of a natural number (`str(n)`). */
  function NatToString(n: nat): (r: string)
    ensures |r| > 0
    ensures forall i :: 0 <= i < |r| ==> IsDigit(r[i])
  {
    if n < 10 then [('0' as int + n) as char]
    else NatToString(n / 10) + [('0' as int + n % 10) as char]
  }

  /** Reads a string of decimal digits back (`int(s)`). */
  function DigitsValue(s: string): nat {
    if s == [] then 0
    else
      var d := s[|s| - 1] as int - '0' as int;
      DigitsValue(s[..|s| - 1]) * 10 + (if 0 <= d then d else 0)
  }

  /** Decimal notation round-trips, so different counters print differently. */
  lemma {:induction false} NatToStringRoundTrip(n: nat)
    ensures DigitsValue(NatToString(n)) == n
  {
    if n >= 10 {
      NatToStringRoundTrip(n / 10);
      var s := NatToString(n);
      assert s[..|s| - 1] == NatToString(n / 10);
    }
  }

  lemma NatToStringInjective(m: nat, n: nat)
    requires NatToString(m) == NatToString(n)
    ensures m == n
  {
    NatToStringRoundTrip(m);
    NatToStringRoundTrip(n);
  }
}

/**
 * String helpers shared by the model: the whitespace class of Python's
 * `str.isspace` (which is also what `\s` matches in a `re` pattern over str),
 * `strip`, lower-casing, substring search, splitting and joining on a
 * character, and decimal rendering of numbers.
 */
module Text {

  /** Python's `str.isspace` / `re` `\s` on str: every Unicode whitespace code point. */
  predicate IsSpace(c: char) {
    || c == ' '
    || ('\t' <= c <= '\r')
    || ('\U{1c}' <= c <= '\U{1f}')
    || c == '\U{85}' || c == '\U{a0}' || c == '\U{1680}'
    || ('\U{2000}' <= c <= '\U{200a}')
    || c == '\U{2028}' || c == '\U{2029}' || c == '\U{202f}' || c == '\U{205f}' || c == '\U{3000}'
  }

  predicate AllSpace(s: string) {
    forall i :: 0 <= i < |s| ==> IsSpace(s[i])
  }

  predicate NoSpace(s: string) {
    forall i :: 0 <= i < |s| ==> !IsSpace(s[i])
  }

  /** `s.lstrip()` */
  function TrimStart(s: string): (r: string)
    ensures |r| <= |s| && r == s[|s| - |r|..]
    ensures r == [] || !IsSpace(r[0])
    ensures AllSpace(s[..|s| - |r|])
    ensures AllSpace(s) ==> r == []
  {
    if s != [] && IsSpace(s[0]) then
      var r := TrimStart(s[1..]);
      assert s[1..][..|s[1..]| - |r|] == s[1..|s| - |r|];
      r
    else s
  }

  /** `s.rstrip()` */
  function TrimEnd(s: string): (r: string)
    ensures |r| <= |s| && r == s[..|r|]
    ensures r == [] || !IsSpace(r[|r| - 1])
    ensures AllSpace(s[|r|..])
    ensures s != [] && !IsSpace(s[0]) ==> r != []
  {
    if s != [] && IsSpace(s[|s| - 1]) then
      var r := TrimEnd(s[..|s| - 1]);
      assert s[|r|..] == s[..|s| - 1][|r|..] + [s[|s| - 1]];
      r
    else s
  }

  /** `s.strip()` */
  function Strip(s: string): string {
    TrimEnd(TrimStart(s))
  }

  /** `not s.strip()`: the string is empty or only whitespace. */
  lemma StripEmptyIffAllSpace(s: string)
    ensures Strip(s) == [] <==> AllSpace(s)
  {
    var t := TrimStart(s);
    if t == [] {
      assert s[..|s|] == s;
    } else {
      assert s[|s| - |t|] == t[0];
    }
  }

  lemma {:induction false} TrimStartSpaces(w: string, x: string)
    requires AllSpace(w)
    ensures TrimStart(w + x) == TrimStart(x)
    decreases |w|
  {
    if w != [] {
      var wx := w + x;
      assert wx[0] == w[0] && IsSpace(wx[0]);
      assert wx[1..] == w[1..] + x;
      assert TrimStart(wx) == TrimStart(wx[1..]);
      TrimStartSpaces(w[1..], x);
    } else {
      assert w + x == x;
    }
  }

  lemma {:induction false} TrimEndSpaces(x: string, w: string)
    requires AllSpace(w)
    ensures TrimEnd(x + w) == TrimEnd(x)
    decreases |w|
  {
    if w != [] {
      var v := w[..|w| - 1];
      assert (x + w)[..|x + w| - 1] == x + v;
      TrimEndSpaces(x, v);
    } else {
      assert x + w == x;
    }
  }

  /** Stripping whitespace padding around a string with no whitespace at either end gives the string back. */
  lemma StripPadded(w1: string, d: string, w2: string)
    requires AllSpace(w1) && AllSpace(w2)
    requires d == [] || (!IsSpace(d[0]) && !IsSpace(d[|d| - 1]))
    ensures Strip(w1 + d + w2) == d
  {
    assert w1 + d + w2 == w1 + (d + w2);
    TrimStartSpaces(w1, d + w2);
    if d == [] {
      assert d + w2 == w2;
      StripEmptyIffAllSpace(w2);
    } else {
      assert TrimStart(d + w2) == d + w2;
      TrimEndSpaces(d, w2);
    }
  }

  /** A string with no whitespace at either end is its own strip. */
  lemma StripUnpadded(d: string)
    requires d == [] || (!IsSpace(d[0]) && !IsSpace(d[|d| - 1]))
    ensures Strip(d) == d
  {
    StripPadded("", d, "");
    assert "" + d + "" == d;
  }

  /** Lower-casing of ASCII and Latin-1 capitals (`A`-`Z`, `À`-`Þ` except `×`). */
  function LowerChar(c: char): (r: char)
    ensures r == c || ('A' <= c <= 'Z' && r as int == c as int + 32)
                   || ('\U{c0}' <= c <= '\U{de}' && c != '\U{d7}' && r as int == c as int + 32)
  {
    if 'A' <= c <= 'Z' || ('\U{c0}' <= c <= '\U{de}' && c != '\U{d7}') then (c as int + 32) as char else c
  }

  /** `s.lower()` in Python, `s.toLowerCase()` in JavaScript, over the characters LowerChar covers. */
  function Lower(s: string): (r: string)
    ensures |r| == |s|
    ensures forall i :: 0 <= i < |s| ==> r[i] == LowerChar(s[i])
  {
    seq(|s|, i requires 0 <= i < |s| => LowerChar(s[i]))
  }

  /** `t in s` (Python) / `s.includes(t)` (JavaScript): t occurs in s at some index. */
  predicate Contains(s: string, t: string)
    decreases |s|
  {
    t <= s || (s != [] && Contains(s[1..], t))
  }

  lemma {:induction false} ContainsAt(s: string, t: string, i: nat)
    requires i + |t| <= |s| && s[i..i + |t|] == t
    ensures Contains(s, t)
    decreases i
  {
    if i == 0 {
      assert t <= s;
    } else {
      assert s[1..][i - 1..i - 1 + |t|] == s[i..i + |t|];
      ContainsAt(s[1..], t, i - 1);
    }
  }

  lemma {:induction false} ContainsWitness(s: string, t: string) returns (i: nat)
    requires Contains(s, t)
    ensures i + |t| <= |s| && s[i..i + |t|] == t
    decreases |s|
  {
    if t <= s {
      i := 0;
    } else {
      var j := ContainsWitness(s[1..], t);
      assert s[1..][j..j + |t|] == s[j + 1..j + 1 + |t|];
      i := j + 1;
    }
  }

  lemma ContainsMiddle(a: string, t: string, b: string)
    ensures Contains(a + t + b, t)
  {
    assert (a + t + b)[|a|..|a| + |t|] == t;
    ContainsAt(a + t + b, t, |a|);
  }

  /** An occurrence in a prefix is an occurrence in the whole string. */
  lemma ContainsExtends(a: string, b: string, t: string)
    requires a <= b && Contains(a, t)
    ensures Contains(b, t)
  {
    var i := ContainsWitness(a, t);
    assert b[i..i + |t|] == a[i..i + |t|];
    ContainsAt(b, t, i);
  }

  lemma ContainsAppend(s: string, y: string, t: string)
    requires Contains(s, t)
    ensures Contains(s + y, t)
  {
    assert s <= s + y;
    ContainsExtends(s, s + y, t);
  }

  lemma ContainsEnd(a: string, t: string)
    ensures Contains(a + t, t)
  {
    assert (a + t)[|a|..|a| + |t|] == t;
    ContainsAt(a + t, t, |a|);
  }

  /**
   * Python's `s.find(t, start)`: the least index at or after `start` where `t`
   * occurs, or -1.
   */
  function Find(s: string, t: string, start: nat): (r: int)
    ensures r == -1 || (start <= r && OccursAt(s, t, r))
    ensures r != -1 ==> forall k :: start <= k < r ==> !OccursAt(s, t, k)
    ensures r == -1 ==> forall k :: start <= k ==> !OccursAt(s, t, k)
    decreases |s| - start
  {
    if start + |t| > |s| then -1
    else if s[start..start + |t|] == t then start
    else Find(s, t, start + 1)
  }

  /** t occurs in s at index k. */
  predicate OccursAt(s: string, t: string, k: int) {
    0 <= k && k + |t| <= |s| && s[k..k + |t|] == t
  }

  /** JavaScript's `s.split(d)` for a one-character separator. */
  function Split(s: string, d: char): (r: seq<string>)
    ensures |r| >= 1
    ensures d !in s ==> r == [s]
    decreases |s|
  {
    if s == [] then [""]
    else
      var rest := Split(s[1..], d);
      assert d !in s ==> d !in s[1..] && rest == [s[1..]] && s == [s[0]] + s[1..];
      if s[0] == d then [""] + rest else [[s[0]] + rest[0]] + rest[1..]
  }

  /** JavaScript's `parts.join(d)` for a one-character separator. */
  function Join(parts: seq<string>, d: char): string {
    if parts == [] then ""
    else if |parts| == 1 then parts[0]
    else parts[0] + [d] + Join(parts[1..], d)
  }

  lemma JoinCons(x: string, rest: seq<string>, d: char)
    requires rest != []
    ensures Join([x] + rest, d) == x + [d] + Join(rest, d)
  {
    assert ([x] + rest)[1..] == rest;
  }

  /** Joining the pieces of a split gives back the string. */
  lemma {:induction false} JoinSplit(s: string, d: char)
    ensures Join(Split(s, d), d) == s
    decreases |s|
  {
    if s != [] {
      var tail := s[1..];
      JoinSplit(tail, d);
      var rest := Split(tail, d);
      var r := Split(s, d);
      assert s == [s[0]] + tail;
      if s[0] == d {
        assert r == [""] + rest;
        JoinCons("", rest, d);
      } else if |rest| == 1 {
        assert r == [[s[0]] + rest[0]];
      } else {
        var more := rest[1..];
        assert rest == [rest[0]] + more;
        assert r == [[s[0]] + rest[0]] + more;
        JoinCons([s[0]] + rest[0], more, d);
        JoinCons(rest[0], more, d);
      }
    }
  }

  /** Splitting a string with no separator in it gives the string alone; one with a separator gives at least two pieces. */
  lemma {:induction false} SplitCount(s: string, d: char)
    ensures (d in s) <==> |Split(s, d)| >= 2
    decreases |s|
  {
    if s != [] {
      SplitCount(s[1..], d);
      assert d in s <==> s[0] == d || d in s[1..];
    }
  }

  function DigitChar(n: nat): char
    requires n < 10
  {
    ['0', '1', '2', '3', '4', '5', '6', '7', '8', '9'][n]
  }

  predicate IsDigit(c: char) {
    '0' <= c <= '9'
  }

  predicate AllDigits(s: string) {
    forall i :: 0 <= i < |s| ==> IsDigit(s[i])
  }

  /** Python's `str(n)` / JavaScript's `String(n)` for a natural number. */
  function NatToString(n: nat): (r: string)
    ensures |r| >= 1 && AllDigits(r)
    decreases n
  {
    if n < 10 then [DigitChar(n)] else NatToString(n / 10) + [DigitChar(n % 10)]
  }

  function IntToString(i: int): string {
    if i < 0 then "-" + NatToString(-i) else NatToString(i)
  }

  /** Python's `int(s)` for a string of ASCII digits. */
  function DigitsValue(s: string): nat
    requires AllDigits(s)
  {
    if s == [] then 0 else DigitsValue(s[..|s| - 1]) * 10 + (s[|s| - 1] as int - '0' as int)
  }

  /** Rendering a number in decimal and reading it back gives the number. */
  lemma {:induction false} DigitsValueOfNatToString(n: nat)
    ensures DigitsValue(NatToString(n)) == n
    decreases n
  {
    var r := NatToString(n);
    if n >= 10 {
      DigitsValueOfNatToString(n / 10);
      assert r[..|r| - 1] == NatToString(n / 10);
    }
  }
}

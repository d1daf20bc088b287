/**
 * The few Python string operations the request handlers rely on:
 * `'\n'.join(lines)`, `s.replace(' ', '_')`, `s.upper()` and `str(n)`
 * for an integer inside an f-string.
 */
module Text {

  /** `'\n'.join(lines)`. */
  function JoinLines(lines: seq<string>): (r: string)
    ensures |lines| > 0 ==> lines[0] <= r
    ensures |lines| > 1 ==> lines[0] + "\n" <= r
    ensures |lines| == 1 ==> r == lines[0]
  {
    if |lines| == 0 then ""
    else if |lines| == 1 then lines[0]
    else lines[0] + "\n" + JoinLines(lines[1..])
  }

  /** Joining a list starts with the joined prefix of that list, a newline after it. */
  lemma {:induction false} JoinPrefix(lines: seq<string>, k: nat)
    requires 0 < k < |lines|
    ensures JoinLines(lines[..k]) + "\n" <= JoinLines(lines)
  {
    if k == 1 {
      assert lines[..1] == [lines[0]];
    } else {
      var rest := lines[1..];
      JoinPrefix(rest, k - 1);
      assert lines[..k][1..] == rest[..k - 1];
      assert lines[..k] != [] && |lines[..k]| > 1;
      calc {
        JoinLines(lines[..k]) + "\n";
        lines[0] + "\n" + JoinLines(rest[..k - 1]) + "\n";
        lines[0] + "\n" + (JoinLines(rest[..k - 1]) + "\n");
      }
      PrefixConcat(lines[0] + "\n", JoinLines(rest[..k - 1]) + "\n", JoinLines(rest));
    }
  }

  /** Four lines joined: the newline goes between them, not after the last. */
  lemma JoinFour(a: string, b: string, c: string, d: string)
    ensures JoinLines([a, b, c, d]) == a + "\n" + b + "\n" + c + "\n" + d
  {
    assert [a, b, c, d][1..] == [b, c, d];
    assert [b, c, d][1..] == [c, d];
    assert [c, d][1..] == [d];
    assert JoinLines([c, d]) == c + "\n" + d;
    assert JoinLines([b, c, d]) == b + "\n" + (c + "\n" + d);
    assert JoinLines([a, b, c, d]) == a + "\n" + (b + "\n" + (c + "\n" + d));
  }

  lemma PrefixConcat(a: string, b: string, c: string)
    requires b <= c
    ensures a + b <= a + c
  {
    assert (a + c)[..|a + b|] == a + b;
  }

  /** `s.replace(' ', '_')`: every space becomes an underscore, nothing else moves. */
  function ReplaceSpaces(s: string): (r: string)
    ensures |r| == |s|
    ensures forall i :: 0 <= i < |s| ==> r[i] == (if s[i] == ' ' then '_' else s[i])
    ensures ' ' !in r
  {
    if |s| == 0 then ""
    else [if s[0] == ' ' then '_' else s[0]] + ReplaceSpaces(s[1..])
  }

  /** `s.upper()` for ASCII letters; every other character is kept. */
  function Upper(s: string): (r: string)
    ensures |r| == |s|
    ensures forall i :: 0 <= i < |s| ==> r[i] == UpperChar(s[i])
  {
    if |s| == 0 then ""
    else [UpperChar(s[0])] + Upper(s[1..])
  }

  /** The doc types in capitals, as the form titles show them. */
  lemma UpperCv()
    ensures Upper("cv") == "CV"
  {
    assert Upper("v") == "V" by { assert "v"[1..] == ""; }
    assert "cv"[1..] == "v";
  }

  lemma UpperResume()
    ensures Upper("resume") == "RESUME"
  {
    var u := ['R', 'E', 'S', 'U', 'M', 'E'];
    var w := "resume";
    forall i | 0 <= i < 6
      ensures Upper(w[i..]) == u[i..]
    {
      UpperSuffix(w, u, i);
    }
    assert w[0..] == w && u[0..] == u;
  }

  /** Letter by letter from the end: the suffix of `w` from `i` upper-cases to that of `u`. */
  lemma {:induction false} UpperSuffix(w: string, u: string, i: nat)
    requires |w| == |u| && i <= |w|
    requires forall j :: 0 <= j < |w| ==> UpperChar(w[j]) == u[j]
    ensures Upper(w[i..]) == u[i..]
    decreases |w| - i
  {
    if i < |w| {
      UpperSuffix(w, u, i + 1);
      assert w[i..][1..] == w[i + 1..];
      assert u[i..] == [u[i]] + u[i + 1..];
    }
  }

  /** A lower-case ASCII letter becomes its capital, 32 code points lower; any other character is kept. */
  function UpperChar(c: char): (u: char)
    ensures 'a' <= c <= 'z' ==> 'A' <= u <= 'Z' && u as int == c as int - 32
    ensures !('a' <= c <= 'z') ==> u == c
  {
    if 'a' <= c <= 'z' then (c as int - 32) as char else c
  }

  /** After `upper()` no lower-case ASCII letter is left, and only lower-case letters changed. */
  lemma UpperLeavesNoLowercase(s: string)
    ensures forall i :: 0 <= i < |s| ==> !('a' <= Upper(s)[i] <= 'z')
    ensures forall i :: 0 <= i < |s| && Upper(s)[i] != s[i] ==> 'a' <= s[i] <= 'z'
  {
  }

  predicate IsDigit(c: char) {
    '0' <= c <= '9'
  }

  predicate AllDigits(s: string) {
    forall i :: 0 <= i < |s| ==> IsDigit(s[i])
  }

  function DigitChar(d: nat): (c: char)
    requires d < 10
    ensures IsDigit(c) && c as int - '0' as int == d
  {
    ('0' as int + d) as char
  }

  /** The decimal digits of `n`, as `str(n)` prints them: no leading zero. */
  function NatToString(n: nat): (s: string)
    ensures |s| > 0 && AllDigits(s)
    ensures |s| > 1 ==> s[0] != '0'
  {
    if n < 10 then [DigitChar(n)] else NatToString(n / 10) + [DigitChar(n % 10)]
  }

  /** `str(i)` for a Python int: a minus sign before a negative number. */
  function IntToString(i: int): (s: string)
    ensures |s| > 0
    ensures i >= 0 <==> IsDigit(s[0])
  {
    if i < 0 then "-" + NatToString(-i) else NatToString(i)
  }

  /** Reads a string of decimal digits back as a number. */
  function ParseNat(s: string): nat
    requires AllDigits(s)
  {
    if |s| == 0 then 0
    else ParseNat(s[..|s| - 1]) * 10 + (s[|s| - 1] as int - '0' as int)
  }

  /** An optional minus sign, then decimal digits. */
  predicate IsIntText(s: string) {
    |s| > 0 && (s[0] == '-' ==> AllDigits(s[1..])) && (s[0] != '-' ==> AllDigits(s))
  }

  /** Reads an optional minus sign and decimal digits back as a number. */
  function ParseInt(s: string): int
    requires IsIntText(s)
  {
    if s[0] == '-' then -(ParseNat(s[1..]) as int) else ParseNat(s)
  }

  lemma {:induction false} NatRoundTrip(n: nat)
    ensures ParseNat(NatToString(n)) == n
  {
    var s := NatToString(n);
    if n >= 10 {
      NatRoundTrip(n / 10);
      assert s[..|s| - 1] == NatToString(n / 10);
    }
  }

  /** `str` loses nothing: the integer printed in an f-string can be read back. */
  lemma IntRoundTrip(i: int)
    ensures IsIntText(IntToString(i)) && ParseInt(IntToString(i)) == i
  {
    var s := IntToString(i);
    if i < 0 {
      NatRoundTrip(-i);
      assert s[1..] == NatToString(-i);
    } else {
      NatRoundTrip(i);
    }
  }
}

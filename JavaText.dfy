/** The few pieces of Java's string semantics the handler relies on:
    null references, string concatenation of `null` and of an `int`,
    `String.equalsIgnoreCase`, and the line layout of a plain-text body. */
module JavaText {

  /** A Java reference that may be null. */
  datatype Option<+T> = None | Some(value: T)

  /** Java's `int`: the range a `nota` field can hold. */
  newtype Int32 = x: int | -0x8000_0000 <= x < 0x8000_0000

  const NullText: string := "null"

  /** What `"..." + s` appends for a `String s`: the text itself, or "null"
      when the reference is null. */
  function Render(s: Option<string>): (r: string)
    ensures s.Some? ==> r == s.value
    ensures s.None? ==> r == NullText
  {
    match s
    case Some(t) => t
    case None => NullText
  }

  // ---------------------------------------------------------------------
  // Integer.toString, used by `"Nota: " + dto.getNota()`

  predicate IsDigit(c: char) {
    '0' <= c <= '9'
  }

  predicate AllDigits(s: string) {
    forall i :: 0 <= i < |s| ==> IsDigit(s[i])
  }

  function DigitChar(d: nat): (c: char)
    requires d < 10
    ensures IsDigit(c) && (c as int) - ('0' as int) == d
  {
    ('0' as int + d) as char
  }

  function DigitValue(c: char): (d: nat)
    requires IsDigit(c)
    ensures d < 10 && DigitChar(d) == c
  {
    (c as int) - ('0' as int)
  }

  /** Decimal digits of a natural number, most significant first, without
      leading zeros. */
  function NatToDigits(n: nat): (s: string)
    ensures |s| >= 1 && AllDigits(s)
    ensures s[0] == '0' ==> n == 0
    decreases n
  {
    if n < 10 then [DigitChar(n)] else NatToDigits(n / 10) + [DigitChar(n % 10)]
  }

  /** Java's decimal rendering of an integer: a leading '-' for negative
      values, then the digits of the magnitude. */
  function IntToString(i: int): (s: string)
    ensures |s| >= 1
    ensures i < 0 <==> s[0] == '-'
    ensures i >= 0 ==> AllDigits(s)
    ensures i < 0 ==> |s| >= 2 && AllDigits(s[1..])
  {
    if i < 0 then "-" + NatToDigits(-i) else NatToDigits(i)
  }

  /** Value of a string of decimal digits. */
  function DigitsValue(s: string): nat
    requires AllDigits(s)
  {
    if s == [] then 0 else DigitsValue(s[..|s| - 1]) * 10 + DigitValue(s[|s| - 1])
  }

  /** The reading direction: an optional '-' followed by at least one digit. */
  function ParseInt(s: string): (r: Option<int>)
    ensures r.Some? ==> |s| >= 1
  {
    if |s| >= 2 && s[0] == '-' && AllDigits(s[1..]) then Some(-(DigitsValue(s[1..]) as int))
    else if |s| >= 1 && AllDigits(s) then Some(DigitsValue(s))
    else None
  }

  lemma {:induction false} DigitsRoundTrip(n: nat)
    ensures DigitsValue(NatToDigits(n)) == n
    decreases n
  {
    var s := NatToDigits(n);
    if n >= 10 {
      DigitsRoundTrip(n / 10);
      assert s[..|s| - 1] == NatToDigits(n / 10);
    }
  }

  /** Reading back what Integer.toString wrote gives the same number. */
  lemma IntToStringRoundTrip(i: int)
    ensures ParseInt(IntToString(i)) == Some(i)
  {
    var s := IntToString(i);
    if i < 0 {
      DigitsRoundTrip(-i);
      assert s[1..] == NatToDigits(-i);
    } else {
      DigitsRoundTrip(i);
      assert !IsDigit('-');
    }
  }

  /** Integer.toString is one-to-one: different numbers render differently. */
  lemma IntToStringInjective(i: int, j: int)
    requires IntToString(i) == IntToString(j)
    ensures i == j
  {
    IntToStringRoundTrip(i);
    IntToStringRoundTrip(j);
  }

  // ---------------------------------------------------------------------
  // String.equalsIgnoreCase, restricted to the ASCII letters

  function ToLowerAscii(c: char): (l: char)
    ensures 'A' <= c <= 'Z' ==> l as int == c as int + 32
    ensures !('A' <= c <= 'Z') ==> l == c
  {
    if 'A' <= c <= 'Z' then (c as int + 32) as char else c
  }

  /** Two characters match ignoring case. */
  predicate SameIgnoringCase(a: char, b: char) {
    a == b || ToLowerAscii(a) == ToLowerAscii(b)
  }

  /** `a.equalsIgnoreCase(b)` for a non-null `b`: same length, and matching
      characters pair by pair, walked from the front. */
  predicate EqualsIgnoreCase(a: string, b: string)
    decreases |a|
  {
    if a == [] || b == [] then a == [] && b == []
    else SameIgnoringCase(a[0], b[0]) && EqualsIgnoreCase(a[1..], b[1..])
  }

  /** Reference reading of the same comparison: equal length and every
      position matches ignoring case. */
  predicate MatchesEverywhere(a: string, b: string) {
    |a| == |b| && forall i :: 0 <= i < |a| ==> SameIgnoringCase(a[i], b[i])
  }

  lemma {:induction false} EqualsIgnoreCaseIsPositionwise(a: string, b: string)
    ensures EqualsIgnoreCase(a, b) <==> MatchesEverywhere(a, b)
    decreases |a|
  {
    if a != [] && b != [] {
      EqualsIgnoreCaseIsPositionwise(a[1..], b[1..]);
      if MatchesEverywhere(a, b) {
        assert SameIgnoringCase(a[0], b[0]);
        forall i | 0 <= i < |a| - 1 ensures SameIgnoringCase(a[1..][i], b[1..][i]) {
          assert SameIgnoringCase(a[i + 1], b[i + 1]);
        }
      }
      if EqualsIgnoreCase(a, b) {
        forall i | 0 <= i < |a| ensures SameIgnoringCase(a[i], b[i]) {
          if i > 0 {
            assert SameIgnoringCase(a[1..][i - 1], b[1..][i - 1]);
          }
        }
      }
    }
  }

  // ---------------------------------------------------------------------
  // Plain-text bodies as lines separated by '\n'

  predicate NoNewline(s: string) {
    forall i :: 0 <= i < |s| ==> s[i] != '\n'
  }

  /** Lines written one after another with a '\n' between neighbours. */
  function JoinLines(lines: seq<string>): string
    requires |lines| >= 1
    decreases |lines|
  {
    if |lines| == 1 then lines[0] else lines[0] + "\n" + JoinLines(lines[1..])
  }

  /** The reading direction: cut a text at every '\n'. */
  function SplitLines(s: string): (lines: seq<string>)
    ensures |lines| >= 1
    decreases |s|
  {
    if s == [] then [""]
    else
      var rest := SplitLines(s[1..]);
      if s[0] == '\n' then [""] + rest else [[s[0]] + rest[0]] + rest[1..]
  }

  lemma {:induction false} SplitSingleLine(a: string)
    requires NoNewline(a)
    ensures SplitLines(a) == [a]
    decreases |a|
  {
    if a != [] {
      SplitSingleLine(a[1..]);
      assert [a[0]] + a[1..] == a;
    }
  }

  lemma {:induction false} SplitAtFirstNewline(a: string, rest: string)
    requires NoNewline(a)
    ensures SplitLines(a + "\n" + rest) == [a] + SplitLines(rest)
    decreases |a|
  {
    if a == [] {
      assert a + "\n" + rest == "\n" + rest;
      assert ("\n" + rest)[1..] == rest;
    } else {
      var s := a + "\n" + rest;
      assert s[1..] == a[1..] + "\n" + rest;
      SplitAtFirstNewline(a[1..], rest);
      assert [a[0]] + a[1..] == a;
    }
  }

  /** Splitting undoes joining when no line holds a '\n' of its own. */
  lemma {:induction false} SplitJoinRoundTrip(lines: seq<string>)
    requires |lines| >= 1
    requires forall k :: 0 <= k < |lines| ==> NoNewline(lines[k])
    ensures SplitLines(JoinLines(lines)) == lines
    decreases |lines|
  {
    if |lines| == 1 {
      SplitSingleLine(lines[0]);
    } else {
      SplitJoinRoundTrip(lines[1..]);
      SplitAtFirstNewline(lines[0], JoinLines(lines[1..]));
    }
  }
}

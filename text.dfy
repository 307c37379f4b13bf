/**
 * Text the screens build: the decimal form Kotlin gives an `Int` (`toString()` and
 * `"$i"` templates), a parser that reads it back, and `String.replace` of one character.
 */
module Text {

  predicate IsDigit(c: char) {
    '0' <= c <= '9'
  }

  predicate AllDigits(s: string) {
    forall i :: 0 <= i < |s| ==> IsDigit(s[i])
  }

  function DigitChar(d: nat): (c: char)
    requires d < 10
    ensures IsDigit(c) && c as int - '0' as int == d
  {
    ('0' as int + d) as char
  }

  /** Decimal digits of `n`, most significant first, without leading zeros. */
  function NatToString(n: nat): (s: string)
    ensures |s| >= 1 && AllDigits(s)
    ensures s[0] == '0' ==> n == 0
    decreases n
  {
    if n < 10 then [DigitChar(n)] else NatToString(n / 10) + [DigitChar(n % 10)]
  }

  /** Kotlin's `Int.toString()`: a minus sign before the digits of a negative number. */
  function IntToString(i: int): (s: string)
    ensures |s| >= 1
    ensures s[0] == '-' <==> i < 0
  {
    if i < 0 then "-" + NatToString(-i) else NatToString(i)
  }

  /** The number a string of decimal digits denotes. */
  function DigitsValue(s: string): (v: nat)
    requires AllDigits(s)
  {
    if s == [] then 0
    else DigitsValue(s[..|s| - 1]) * 10 + (s[|s| - 1] as int - '0' as int)
  }

  /** The texts `IntToString` can produce: digits, optionally after one minus sign. */
  predicate IsIntText(s: string) {
    |s| >= 1 &&
    if s[0] == '-' then |s| >= 2 && AllDigits(s[1..]) else AllDigits(s)
  }

  /** Reads an integer back from its text. */
  function IntValue(s: string): (v: int)
    requires IsIntText(s)
  {
    if s[0] == '-' then 0 - DigitsValue(s[1..]) as int else DigitsValue(s)
  }

  lemma {:induction false} NatToStringRoundTrip(n: nat)
    ensures DigitsValue(NatToString(n)) == n
    decreases n
  {
    if n >= 10 {
      var s := NatToString(n);
      assert s[..|s| - 1] == NatToString(n / 10);
      NatToStringRoundTrip(n / 10);
    }
  }

  /** Every text `IntToString` writes reads back as the number it was written from. */
  lemma IntToStringRoundTrip(i: int)
    ensures IsIntText(IntToString(i)) && IntValue(IntToString(i)) == i
  {
    var s := IntToString(i);
    if i < 0 {
      assert s[1..] == NatToString(-i);
      NatToStringRoundTrip(-i);
    } else {
      NatToStringRoundTrip(i);
    }
  }

  /** Different numbers are shown as different texts. */
  lemma IntToStringInjective(i: int, j: int)
    ensures IntToString(i) == IntToString(j) ==> i == j
  {
    IntToStringRoundTrip(i);
    IntToStringRoundTrip(j);
  }

  /** Kotlin's `t.replace(c.toString(), r)`: every occurrence of `c` in `t` becomes `r`. */
  function ReplaceChar(t: string, c: char, r: string): (u: string)
    ensures c !in t ==> u == t
    ensures c !in r ==> c !in u
    ensures forall x :: x in u ==> x in t || x in r
  {
    if t == [] then [] else (if t[0] == c then r else [t[0]]) + ReplaceChar(t[1..], c, r)
  }

  /** Replacing works piece by piece: the text of a concatenation is the concatenation of the texts. */
  lemma {:induction false} ReplaceCharConcat(a: string, b: string, c: char, r: string)
    ensures ReplaceChar(a + b, c, r) == ReplaceChar(a, c, r) + ReplaceChar(b, c, r)
    decreases |a|
  {
    if a == [] {
      assert a + b == b;
    } else {
      assert (a + b)[1..] == a[1..] + b;
      ReplaceCharConcat(a[1..], b, c, r);
    }
  }

  /**
   * What takes the place of each character: `c` itself becomes `r`, any other
   * character stays; with `ReplaceCharConcat` this fixes the whole result.
   */
  lemma ReplaceCharSingle(x: char, c: char, r: string)
    ensures ReplaceChar([], c, r) == []
    ensures ReplaceChar([c], c, r) == r
    ensures x != c ==> ReplaceChar([x], c, r) == [x]
  {
    assert [c][1..] == [];
    assert [x][1..] == [];
  }
}

/** The conversion between dates and the text the remote table stores them
    as (`toISOString` one way, `new Date(text)` the other). The model renders
    an instant as its decimal millisecond count, with a leading '-' when
    negative: what matters downstream is only that the text is never empty
    and that reading it back gives the same date. */
module IsoText {
  import opened Types

  function DigitChar(d: int): (c: char)
    requires 0 <= d < 10
    ensures '0' <= c <= '9'
  {
    ('0' as int + d) as char
  }

  /** The value of a decimal digit; any other character reads as 0. */
  function DigitValue(c: char): (d: nat)
    ensures d < 10
  {
    if '0' <= c <= '9' then c as int - '0' as int else 0
  }

  /** Decimal rendering of a natural number, most significant digit first. */
  function NatText(n: nat): (s: string)
    ensures |s| > 0
    ensures forall i :: 0 <= i < |s| ==> '0' <= s[i] <= '9'
  {
    if n < 10 then [DigitChar(n)] else NatText(n / 10) + [DigitChar(n % 10)]
  }

  /** Reads a decimal rendering back. */
  function ParseNat(s: string): nat {
    if s == [] then 0 else ParseNat(s[..|s| - 1]) * 10 + DigitValue(s[|s| - 1])
  }

  lemma {:induction false} ParseNatText(n: nat)
    ensures ParseNat(NatText(n)) == n
  {
    var s := NatText(n);
    if n >= 10 {
      assert s[..|s| - 1] == NatText(n / 10);
      ParseNatText(n / 10);
    }
  }

  /** `Date.prototype.toISOString`, as decimal text. */
  function ToIso(d: Date): (s: string)
    ensures |s| > 0
  {
    if d.millis < 0 then "-" + NatText(-d.millis) else NatText(d.millis)
  }

  /** `new Date(text)`, on the decimal stand-in for ISO text. The sign
      facts below are properties of the stand-in; what the model relies on
      is that it reads back `ToIso`'s text, `IsoRoundTrip`. */
  function ParseIso(s: string): (d: Date)
    ensures d.millis < 0 ==> |s| > 0 && s[0] == '-'
    ensures |s| > 0 && s[0] == '-' ==> d.millis <= 0
  {
    if |s| > 0 && s[0] == '-' then Date(-(ParseNat(s[1..]) as int)) else Date(ParseNat(s))
  }

  /** Reading a date's text back gives the date: the conversion is injective. */
  lemma IsoRoundTrip(d: Date)
    ensures ParseIso(ToIso(d)) == d
  {
    var s := ToIso(d);
    if d.millis < 0 {
      assert s[1..] == NatText(-d.millis);
      ParseNatText(-d.millis);
    } else {
      assert s[0] != '-';
      ParseNatText(d.millis);
    }
  }
}

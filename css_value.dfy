/**
 * The text the component writes into the container's `--web-splitter-movement`
 * custom property: the movement printed as a decimal integer followed by `px`
 * (the template literal `${totalMovement}px`, or `totalMovement + 'px'`).
 */
module CssValue {

  /** The character of one decimal digit. */
  function DigitChar(d: nat): (c: char)
    requires d < 10
    ensures '0' <= c <= '9'
    ensures c as int - '0' as int == d
  {
    (48 + d) as char
  }

  /** Decimal digits of `n`, most significant first. */
  function NatText(n: nat): (r: string)
    ensures |r| >= 1
    decreases n
  {
    if n < 10 then [DigitChar(n)] else NatText(n / 10) + [DigitChar(n % 10)]
  }

  /** The printed natural is made of decimal digits only, with no leading zero. */
  lemma {:induction false} NatTextDigits(n: nat)
    ensures forall i :: 0 <= i < |NatText(n)| ==> '0' <= NatText(n)[i] <= '9'
    ensures n >= 10 ==> NatText(n)[0] != '0'
    decreases n
  {
    if n >= 10 {
      NatTextDigits(n / 10);
      var r := NatText(n);
      assert r == NatText(n / 10) + [DigitChar(n % 10)];
      forall i | 0 <= i < |r| ensures '0' <= r[i] <= '9' {
        if i < |r| - 1 {
          assert r[i] == NatText(n / 10)[i];
        }
      }
      if n / 10 < 10 {
        assert NatText(n / 10) == [DigitChar(n / 10)];
      }
      assert r[0] == NatText(n / 10)[0];
    }
  }

  /** An integer as JavaScript prints it below 10^21 in magnitude: a minus sign for negatives, then the digits. */
  function IntText(i: int): string
  {
    if i < 0 then "-" + NatText(-i) else NatText(i)
  }

  /** The CSS length written for a movement value. */
  function Px(i: int): string
  {
    IntText(i) + "px"
  }

  /** The value of a string of decimal digits, read left to right. */
  ghost function DigitsValue(s: string): int
  {
    if s == [] then 0 else DigitsValue(s[..|s| - 1]) * 10 + (s[|s| - 1] as int - '0' as int)
  }

  /** Reading the printed digits back gives the number that was printed. */
  lemma {:induction false} DigitsRoundTrip(n: nat)
    ensures DigitsValue(NatText(n)) == n
    decreases n
  {
    if n >= 10 {
      var r := NatText(n);
      assert r[..|r| - 1] == NatText(n / 10);
      DigitsRoundTrip(n / 10);
    }
  }

  /** Printing naturals is injective. */
  lemma NatTextInjective(a: nat, b: nat)
    requires NatText(a) == NatText(b)
    ensures a == b
  {
    DigitsRoundTrip(a);
    DigitsRoundTrip(b);
  }

  /** The printed integer starts with a minus sign exactly when it is negative. */
  lemma IntTextSign(i: int)
    ensures |IntText(i)| >= 1
    ensures (IntText(i)[0] == '-') <==> i < 0
    ensures i < 0 ==> IntText(i)[1..] == NatText(-i)
  {
    if i >= 0 {
      NatTextDigits(i);
      assert '0' <= NatText(i)[0] <= '9';
    }
  }

  /** Different movements are written as different property values, so the
      custom property determines the movement it mirrors. */
  lemma PxInjective(a: int, b: int)
    requires Px(a) == Px(b)
    ensures a == b
  {
    var ta, tb := IntText(a), IntText(b);
    assert ta == Px(a)[..|Px(a)| - 2];
    assert tb == Px(b)[..|Px(b)| - 2];
    IntTextSign(a);
    IntTextSign(b);
    if a < 0 {
      NatTextInjective(-a, -b);
    } else {
      NatTextInjective(a, b);
    }
  }
}

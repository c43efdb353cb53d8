/** Canonical texts for decimals: every value the checks compute with can be
    written in the form their regular expression accepts.  */
module DecimalText {
  import opened Json
  import opened Text
  import opened Decimals

  /** The digits of c without its last n. */
  function Whole(c: nat, n: nat): (s: string)
    ensures IsCanonical(s)
  {
    if n == 0 then StrOfIsCanonical(c); StrOf(c) else Whole(c / 10, n - 1)
  }

  /** The last n digits of c. */
  function Fraction(c: nat, n: nat): (s: string)
    ensures |s| == n && forall k :: 0 <= k < |s| ==> IsDigit(s[k])
  {
    if n == 0 then "" else Fraction(c / 10, n - 1) + [Digit(c % 10)]
  }

  /** c / 10^n as a canonical money text. */
  function TextOf(c: nat, n: nat): string {
    if n == 0 then StrOf(c) else Whole(c, n) + "." + Fraction(c, n)
  }

  lemma {:induction false} DigitsOfText(c: nat, n: nat)
    ensures IsDigits(Whole(c, n) + Fraction(c, n))
    ensures NatOf(Whole(c, n) + Fraction(c, n)) == c
  {
    if n == 0 {
      assert StrOf(c) + "" == StrOf(c);
    } else {
      var front := Whole(c / 10, n - 1) + Fraction(c / 10, n - 1);
      DigitsOfText(c / 10, n - 1);
      assert Whole(c, n) + Fraction(c, n) == front + [Digit(c % 10)];
      assert (front + [Digit(c % 10)])[..|front|] == front;
    }
  }

  lemma {:induction false} PointAfter(head: string, tail: string)
    requires forall k :: 0 <= k < |head| ==> IsDigit(head[k])
    ensures Point(head + "." + tail) == |head|
    ensures Point(head) == |head|
  {
    if head == "" {
      assert head + "." + tail == "." + tail;
    } else {
      PointAfter(head[1..], tail);
      assert (head + "." + tail)[1..] == head[1..] + "." + tail;
    }
  }

  /** Reading the text of a decimal gives it back. */
  lemma MoneyTextOf(c: nat, n: nat)
    ensures MoneyText(TextOf(c, n)) == Some(Dec(c, 0 - n))
  {
    if n == 0 {
      StrOfIsCanonical(c);
      PointAfter(StrOf(c), "");
      assert StrOf(c)[..|StrOf(c)|] == StrOf(c);
    } else {
      var head, tail := Whole(c, n), Fraction(c, n);
      var s := head + "." + tail;
      PointAfter(head, tail);
      DigitsOfText(c, n);
      assert s[..|head|] == head && s[|head| + 1..] == tail;
    }
  }
}

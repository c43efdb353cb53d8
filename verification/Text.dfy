/** Strings as Python orders and formats them. */
module Text {

  /** `a <= b` on strings: by code point, shorter prefix first. */
  predicate Leq(a: string, b: string) {
    a == [] || (b != [] && (a[0] < b[0] || (a[0] == b[0] && Leq(a[1..], b[1..]))))
  }

  lemma {:induction false} LeqTotal(a: string, b: string)
    ensures Leq(a, b) || Leq(b, a)
    ensures Leq(a, b) && Leq(b, a) ==> a == b
  {
    if a != [] && b != [] {
      LeqTotal(a[1..], b[1..]);
      assert a == [a[0]] + a[1..] && b == [b[0]] + b[1..];
    }
  }

  lemma {:induction false} LeqTransitive(a: string, b: string, c: string)
    requires Leq(a, b) && Leq(b, c)
    ensures Leq(a, c)
  {
    if a != [] && a[0] == b[0] == c[0] {
      LeqTransitive(a[1..], b[1..], c[1..]);
    }
  }

  lemma LeastExists(s: set<string>)
    requires s != {}
    ensures exists k :: IsLeast(k, s)
  {
    var x :| x in s;
    if s == {x} {
      LeqTotal(x, x);
      assert IsLeast(x, s);
    } else {
      LeastExists(s - {x});
      var k :| IsLeast(k, s - {x});
      LeqTotal(k, x);
      LeqTotal(x, x);
      if Leq(k, x) {
        assert IsLeast(k, s);
      } else {
        forall o | o in s ensures Leq(x, o) {
          if o != x { LeqTransitive(x, k, o); }
        }
        assert IsLeast(x, s);
      }
    }
  }

  predicate IsLeast(k: string, s: set<string>) {
    k in s && forall o :: o in s ==> Leq(k, o)
  }

  function Least(s: set<string>): (k: string)
    requires s != {}
    ensures k in s
  {
    LeastExists(s);
    assert forall x, y :: IsLeast(x, s) && IsLeast(y, s) ==> x == y by {
      forall x, y | IsLeast(x, s) && IsLeast(y, s) ensures x == y { LeqTotal(x, y); }
    }
    var k :| IsLeast(k, s);
    k
  }

  /** `sorted(s)`. */
  function Sorted(s: set<string>): (r: seq<string>)
    ensures forall k :: k in r <==> k in s
    ensures |r| == |s|
  {
    if s == {} then [] else [Least(s)] + Sorted(s - {Least(s)})
  }

  ghost predicate Ordered(r: seq<string>) {
    forall i, j :: 0 <= i < j < |r| ==> Leq(r[i], r[j]) && r[i] != r[j]
  }

  lemma OrderedCons(k: string, rest: seq<string>)
    requires Ordered(rest) && forall o :: o in rest ==> Leq(k, o) && k != o
    ensures Ordered([k] + rest)
  {
    var r := [k] + rest;
    forall i, j | 0 <= i < j < |r| ensures Leq(r[i], r[j]) && r[i] != r[j] {
      assert r[j] == rest[j - 1] && rest[j - 1] in rest;
      if i > 0 { assert r[i] == rest[i - 1]; }
    }
  }

  lemma {:induction false} SortedIsOrdered(s: set<string>)
    ensures Ordered(Sorted(s))
  {
    if s != {} {
      var k := Least(s);
      LeastExists(s);
      assert IsLeast(k, s);
      SortedIsOrdered(s - {k});
      OrderedCons(k, Sorted(s - {k}));
    }
  }

  predicate IsDigit(c: char) {
    '0' <= c <= '9'
  }

  /** `part.isdigit()`. */
  predicate IsDigits(s: string) {
    s != [] && forall k :: 0 <= k < |s| ==> IsDigit(s[k])
  }

  function DigitValue(c: char): nat
    requires IsDigit(c)
  {
    c as int - '0' as int
  }

  /** `int(s)` on digits; leading zeros are accepted. */
  function NatOf(s: string): nat
    requires forall k :: 0 <= k < |s| ==> IsDigit(s[k])
  {
    if s == [] then 0 else 10 * NatOf(s[..|s| - 1]) + DigitValue(s[|s| - 1])
  }

  function Digit(d: nat): (c: char)
    requires d < 10
    ensures IsDigit(c) && DigitValue(c) == d
  {
    ('0' as int + d) as char
  }

  /** `str(n)`. */
  function StrOf(n: nat): (s: string)
    ensures IsDigits(s)
    ensures NatOf(s) == n
  {
    if n < 10 then [Digit(n)]
    else
      var head := StrOf(n / 10);
      assert (head + [Digit(n % 10)])[..|head|] == head;
      head + [Digit(n % 10)]
  }

  /** A decimal index as `str` writes it: no leading zero. */
  predicate IsCanonical(s: string) {
    IsDigits(s) && (s[0] == '0' ==> |s| == 1)
  }

  lemma {:induction false} StrOfIsCanonical(n: nat)
    ensures IsCanonical(StrOf(n))
    ensures n > 0 ==> StrOf(n)[0] != '0'
  {
    if n >= 10 { StrOfIsCanonical(n / 10); }
  }

  lemma StrOfInjective(m: nat, n: nat)
    requires StrOf(m) == StrOf(n)
    ensures m == n
  {
    assert NatOf(StrOf(m)) == NatOf(StrOf(n));
  }

  lemma {:induction false} NatOfPositive(s: string)
    requires IsCanonical(s) && s != "0"
    ensures NatOf(s) > 0
  {
    if |s| > 1 {
      assert s[..|s| - 1][0] == s[0];
      NatOfPositive(s[..|s| - 1]);
    }
  }

  /** A canonical index is the text of its value. */
  lemma {:induction false} StrOfNatOf(s: string)
    requires IsCanonical(s)
    ensures StrOf(NatOf(s)) == s
  {
    var head := s[..|s| - 1];
    if |s| > 1 {
      assert head[0] == s[0];
      NatOfPositive(head);
      StrOfNatOf(head);
      assert NatOf(s) / 10 == NatOf(head) && NatOf(s) % 10 == DigitValue(s[|s| - 1]);
      assert s == head + [s[|s| - 1]];
    } else {
      assert head == "";
      assert NatOf(s) == DigitValue(s[0]);
    }
  }
}

/**
 * How the stats view compares dates: `date <= today` on two strings, which
 * JavaScript decides by comparing code units from the front. For the
 * `yyyy-mm-dd` strings a date input and `toISOString().split("T")[0]` produce,
 * that string order is the order of the calendar dates.
 */
module DateOrder {

  /** JavaScript's `a < b` on strings: a proper prefix, or a smaller unit at the first difference. */
  function LexLess(a: string, b: string): (r: bool)
    ensures r ==> a != b
    ensures |a| < |b| && a == b[..|a|] ==> r
  {
    if |a| == 0 then |b| > 0
    else if |b| == 0 then false
    else if a[0] != b[0] then a[0] < b[0]
    else LexLess(a[1..], b[1..])
  }

  /** Exactly one of `a < b`, `a == b`, `b < a` holds. */
  lemma {:induction false} LexTrichotomy(a: string, b: string)
    ensures LexLess(a, b) || a == b || LexLess(b, a)
    ensures !(LexLess(a, b) && LexLess(b, a))
    ensures !(LexLess(a, b) && a == b)
  {
    if |a| > 0 && |b| > 0 && a[0] == b[0] {
      LexTrichotomy(a[1..], b[1..]);
      if a[1..] == b[1..] {
        assert a == [a[0]] + a[1..] && b == [b[0]] + b[1..];
      }
    }
  }

  /**
   * JavaScript's `a <= b` on strings, which is `!(b < a)`: "equal or strictly
   * before", the two cases never overlapping.
   */
  function LexLessEq(a: string, b: string): (r: bool)
    ensures r <==> a == b || LexLess(a, b)
  {
    LexTrichotomy(a, b);
    !LexLess(b, a)
  }

  /** Comparing two concatenations whose first parts have the same length. */
  lemma {:induction false} LexLessConcat(x1: string, y1: string, x2: string, y2: string)
    requires |x1| == |x2|
    ensures LexLess(x1 + y1, x2 + y2) <==> LexLess(x1, x2) || (x1 == x2 && LexLess(y1, y2))
  {
    if |x1| > 0 {
      assert (x1 + y1)[0] == x1[0] && (x2 + y2)[0] == x2[0];
      assert (x1 + y1)[1..] == x1[1..] + y1;
      assert (x2 + y2)[1..] == x2[1..] + y2;
      LexLessConcat(x1[1..], y1, x2[1..], y2);
      if x1[0] == x2[0] && x1[1..] == x2[1..] {
        assert x1 == [x1[0]] + x1[1..] && x2 == [x2[0]] + x2[1..];
      }
    } else {
      assert x1 + y1 == y1 && x2 + y2 == y2;
    }
  }

  predicate IsDigit(c: char)
  {
    '0' <= c <= '9'
  }

  predicate IsDigits(s: string)
  {
    forall i :: 0 <= i < |s| ==> IsDigit(s[i])
  }

  function Pow10(n: nat): (p: nat)
    ensures p >= 1
  {
    if n == 0 then 1 else 10 * Pow10(n - 1)
  }

  /** The decimal value of a string of digits, read from the front. */
  function Num(s: string): nat
    requires IsDigits(s)
  {
    if s == [] then 0
    else (s[0] - '0') as nat * Pow10(|s| - 1) + Num(s[1..])
  }

  /** A string of `n` digits denotes less than `10^n`. */
  lemma {:induction false} NumBound(s: string)
    requires IsDigits(s)
    ensures Num(s) < Pow10(|s|)
  {
    if s != [] {
      NumBound(s[1..]);
      var d := (s[0] - '0') as nat;
      var p := Pow10(|s| - 1);
      MulMono(d + 1, 10, p);
      assert Num(s) == d * p + Num(s[1..]) < d * p + p == (d + 1) * p <= 10 * p;
    }
  }

  lemma MulMono(a: nat, b: nat, p: nat)
    requires a <= b
    ensures a * p <= b * p
  {
  }

  /** On digit strings of one length, string order is numeric order. */
  lemma {:induction false} DigitsOrder(a: string, b: string)
    requires IsDigits(a) && IsDigits(b) && |a| == |b|
    ensures LexLess(a, b) <==> Num(a) < Num(b)
  {
    if |a| > 0 {
      var p := Pow10(|a| - 1);
      var da, db := (a[0] - '0') as nat, (b[0] - '0') as nat;
      assert Num(a) == da * p + Num(a[1..]);
      assert Num(b) == db * p + Num(b[1..]);
      if a[0] == b[0] {
        DigitsOrder(a[1..], b[1..]);
      } else if a[0] < b[0] {
        LeadingDigitDecides(a, b);
      } else {
        LeadingDigitDecides(b, a);
      }
    }
  }

  /** A smaller leading digit makes the whole number smaller. */
  lemma LeadingDigitDecides(a: string, b: string)
    requires IsDigits(a) && IsDigits(b) && |a| == |b| > 0 && a[0] < b[0]
    ensures Num(a) < Num(b)
  {
    var p := Pow10(|a| - 1);
    var da, db := (a[0] - '0') as nat, (b[0] - '0') as nat;
    var ra, rb := Num(a[1..]), Num(b[1..]);
    assert Num(a) == da * p + ra && Num(b) == db * p + rb;
    NumBound(a[1..]);
    MulStep(da, db, p);
  }

  /** One more multiple of `p` fits below a larger multiple. */
  lemma MulStep(a: nat, b: nat, p: nat)
    requires a < b
    ensures a * p + p <= b * p
  {
    MulMono(a + 1, b, p);
    assert (a + 1) * p == a * p + p;
  }

  /** `yyyy-mm-dd`: four, two and two digits separated by hyphens. */
  predicate IsoDate(s: string)
  {
    |s| == 10 && s[4] == '-' && s[7] == '-' &&
    IsDigits(s[..4]) && IsDigits(s[5..7]) && IsDigits(s[8..])
  }

  function Year(s: string): nat
    requires IsoDate(s)
  {
    Num(s[..4])
  }

  function Month(s: string): nat
    requires IsoDate(s)
  {
    Num(s[5..7])
  }

  function Day(s: string): nat
    requires IsoDate(s)
  {
    Num(s[8..])
  }

  /** The calendar order of two dates: by year, then month, then day. */
  predicate Before(a: string, b: string)
    requires IsoDate(a) && IsoDate(b)
  {
    Year(a) < Year(b) ||
    (Year(a) == Year(b) && (Month(a) < Month(b) || (Month(a) == Month(b) && Day(a) < Day(b))))
  }

  /** Equal-length digit strings with the same value are the same string. */
  lemma SameNumSameDigits(a: string, b: string)
    requires IsDigits(a) && IsDigits(b) && |a| == |b|
    ensures a == b <==> Num(a) == Num(b)
  {
    LexTrichotomy(a, b);
    DigitsOrder(a, b);
    DigitsOrder(b, a);
  }

  /** Comparing a field first, then the rest: the step shared by year, month and day. */
  lemma FieldThenRest(x1: string, y1: string, x2: string, y2: string)
    requires IsDigits(x1) && IsDigits(x2) && |x1| == |x2|
    ensures LexLess(x1 + y1, x2 + y2) <==> Num(x1) < Num(x2) || (Num(x1) == Num(x2) && LexLess(y1, y2))
  {
    LexLessConcat(x1, y1, x2, y2);
    DigitsOrder(x1, x2);
    SameNumSameDigits(x1, x2);
  }

  /** Between ISO dates, string order is calendar order. */
  lemma IsoStringOrderIsCalendarOrder(a: string, b: string)
    requires IsoDate(a) && IsoDate(b)
    ensures LexLess(a, b) <==> Before(a, b)
  {
    var day := LexLess(a[8..], b[8..]);
    assert day <==> Day(a) < Day(b) by {
      DigitsOrder(a[8..], b[8..]);
    }
    var fromMonth := LexLess(a[5..], b[5..]);
    assert fromMonth <==> Month(a) < Month(b) || (Month(a) == Month(b) && day) by {
      assert a[5..] == a[5..7] + a[7..] && b[5..] == b[5..7] + b[7..];
      FieldThenRest(a[5..7], a[7..], b[5..7], b[7..]);
      SeparatorThenRest(a[7..], b[7..]);
      assert a[7..][1..] == a[8..] && b[7..][1..] == b[8..];
    }
    assert LexLess(a, b) <==> Year(a) < Year(b) || (Year(a) == Year(b) && fromMonth) by {
      assert a == a[..4] + a[4..] && b == b[..4] + b[4..];
      FieldThenRest(a[..4], a[4..], b[..4], b[4..]);
      SeparatorThenRest(a[4..], b[4..]);
      assert a[4..][1..] == a[5..] && b[4..][1..] == b[5..];
    }
  }

  /** A common first unit does not decide the order: the rest does. */
  lemma SeparatorThenRest(a: string, b: string)
    requires |a| > 0 && |b| > 0 && a[0] == b[0]
    ensures LexLess(a, b) <==> LexLess(a[1..], b[1..])
  {
  }
}

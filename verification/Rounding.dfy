/** Tax on a line in integer cents (src/core/device.ts). */
module Rounding {

  const MAX_SAFE: int := 0x1F_FFFF_FFFF_FFFF

  function Abs(n: int): nat { if n < 0 then -n else n }

  predicate Safe(n: int) { Abs(n) <= MAX_SAFE }

  /** What rounding half away from zero means, for any quotient n / d. */
  predicate IsRounded(n: int, d: int, q: int) {
    && 2 * Abs(q * d - n) <= d
    && (2 * Abs(q * d - n) == d ==> Abs(q * d) > Abs(n))
  }

  function DivideRoundHalfAwayFromZero(n: int, d: int): (r: int)
    requires d > 0
    ensures IsRounded(n, d, r)
  {
    var abs := Abs(n);
    var rem := abs % d;
    var q := (abs - rem) / d + (if rem * 2 >= d then 1 else 0);
    RoundedNatural(abs, d);
    RoundedNegative(abs, d, q);
    if n < 0 then 0 - q else q
  }

  lemma RoundedNegative(n: int, d: int, q: int)
    requires d > 0 && IsRounded(n, d, q)
    ensures IsRounded(-n, d, -q)
  {
    assert (-q) * d == -(q * d);
  }

  lemma RoundedNatural(abs: nat, d: int)
    requires d > 0
    ensures var rem := abs % d;
            IsRounded(abs, d, (abs - rem) / d + (if rem * 2 >= d then 1 else 0))
  {
    var rem := abs % d;
    var q := abs / d;
    assert abs == q * d + rem;
    assert abs - rem == d * q && (abs - rem) / d == q by {
      DivideMultiple(q, d);
    }
    assert (q + 1) * d == q * d + d;
  }

  lemma DivideMultiple(q: int, d: int)
    requires d > 0
    ensures d * q / d == q
  {
    var r := d * q / d;
    assert d * q == d * r + d * q % d;
    assert d * (q - r) == d * q % d;
    if q - r >= 1 {
      Scale(d, 1, q - r);
    } else if q - r <= -1 {
      Scale(d, q - r, -1);
    }
  }

  lemma Scale(d: int, a: int, b: int)
    requires d > 0 && a <= b
    ensures d * a <= d * b
  {
  }

  /** The definition of rounding leaves no choice. */
  lemma RoundedUnique(n: int, d: int, p: int, q: int)
    requires d > 0 && IsRounded(n, d, p) && IsRounded(n, d, q)
    ensures p == q
  {
    if p < q {
      OnlyOneRounds(n, d, p, q);
    } else if q < p {
      OnlyOneRounds(n, d, q, p);
    }
  }

  lemma OnlyOneRounds(n: int, d: int, p: int, q: int)
    requires d > 0 && p < q
    ensures !IsRounded(n, d, p) || !IsRounded(n, d, q)
  {
    Gap(d, p, q);
    // If both did, both were ties, yet one of the two is nearer to zero than n.
    if p >= 0 {
      Scale(d, 0, p);
    } else if q <= 0 {
      Scale(d, q, 0);
    }
  }

  lemma Gap(d: int, p: int, q: int)
    requires d > 0 && p < q
    ensures q * d >= p * d + d
    ensures q * d == p * d + d ==> q == p + 1
  {
    assert q * d - p * d == d * (q - p);
    Scale(d, 1, q - p);
    if q - p >= 2 {
      Scale(d, 2, q - p);
    }
  }

  /** Rounding is odd: a credit note's tax is the sale's tax with the sign turned. */
  lemma RoundingIsOdd(n: int, d: int)
    requires d > 0
    ensures DivideRoundHalfAwayFromZero(-n, d) == -DivideRoundHalfAwayFromZero(n, d)
  {
    var r := DivideRoundHalfAwayFromZero(n, d);
    RoundedNegative(n, d, r);
    RoundedUnique(-n, d, -r, DivideRoundHalfAwayFromZero(-n, d));
  }

  lemma RoundingIsMonotone(m: int, n: int, d: int)
    requires d > 0 && m <= n
    ensures DivideRoundHalfAwayFromZero(m, d) <= DivideRoundHalfAwayFromZero(n, d)
  {
    hide DivideRoundHalfAwayFromZero;
    var p, q := DivideRoundHalfAwayFromZero(m, d), DivideRoundHalfAwayFromZero(n, d);
    if p > q {
      Gap(d, q, p);
      RoundedUnique(n, d, p, q);
    }
  }

  // -- line tax ------------------------------------------------------------

  datatype TaxResult = Cents(cents: int) | RangeError

  /** total * bp / 10000 on a net line, total * bp / (10000 + bp) on a gross one. */
  function LineTaxCents(totalCents: int, bp: int, taxInclusive: bool): TaxResult {
    var numerator := totalCents * bp;
    var denominator := if taxInclusive then 10000 + bp else 10000;
    if !Safe(bp) || !Safe(numerator) || denominator <= 0 then RangeError
    else Cents(DivideRoundHalfAwayFromZero(numerator, denominator))
  }

  /** The tax is the rounded quotient, and is refused exactly for what cannot be computed exactly. */
  lemma LineTaxMeans(totalCents: int, bp: int, taxInclusive: bool)
    ensures
      var d := if taxInclusive then 10000 + bp else 10000;
      match LineTaxCents(totalCents, bp, taxInclusive)
      case Cents(t) => Safe(bp) && Safe(totalCents * bp) && d > 0 && IsRounded(totalCents * bp, d, t)
      case RangeError => !Safe(bp) || !Safe(totalCents * bp) || d <= 0
  {
    hide IsRounded;
  }

  /** A rounding error on one side of the books, read from the other side. */
  lemma SameError(net: int, t: int, bp: int)
    ensures t * (10000 + bp) - (net + t) * bp == t * 10000 - net * bp
  {
    assert t * (10000 + bp) == t * 10000 + t * bp && (net + t) * bp == net * bp + t * bp;
  }

  /** Tax added to a net amount is found again, to the cent, inside the gross amount. */
  lemma ExclusiveThenInclusive(net: int, bp: nat)
    requires LineTaxCents(net, bp, false).Cents?
    requires LineTaxCents(net + LineTaxCents(net, bp, false).cents, bp, true).Cents?
    ensures LineTaxCents(net + LineTaxCents(net, bp, false).cents, bp, true) == LineTaxCents(net, bp, false)
  {
    hide DivideRoundHalfAwayFromZero;
    var t := LineTaxCents(net, bp, false).cents;
    SameError(net, t, bp);
    if bp == 0 {
      assert net * bp == 0 && (net + t) * bp == 0;
    } else {
      RoundedUnique((net + t) * bp, 10000 + bp, t, LineTaxCents(net + t, bp, true).cents) by {
        InWider(net * bp, (net + t) * bp, t, bp);
      }
    }
  }

  lemma InWider(n: int, m: int, t: int, bp: int)
    requires bp > 0 && IsRounded(n, 10000, t) && t * (10000 + bp) - m == t * 10000 - n
    ensures IsRounded(m, 10000 + bp, t)
  {
  }

  /**
   * Tax taken out of a gross amount and put back on the net differs by less
   * than one cent plus half the rate; up to 100%, by at most one cent.
   */
  lemma InclusiveThenExclusive(gross: int, bp: nat)
    requires LineTaxCents(gross, bp, true).Cents?
    requires LineTaxCents(gross - LineTaxCents(gross, bp, true).cents, bp, false).Cents?
    ensures var t := LineTaxCents(gross, bp, true).cents;
            var back := LineTaxCents(gross - t, bp, false).cents;
            20000 * Abs(back - t) <= 20000 + bp && (bp <= 10000 ==> Abs(back - t) <= 1)
  {
    hide DivideRoundHalfAwayFromZero;
    var t := LineTaxCents(gross, bp, true).cents;
    var back := LineTaxCents(gross - t, bp, false).cents;
    SameError(gross - t, t, bp);
    AtMost((gross - t) * bp, gross * bp, t, back, bp);
  }

  lemma AtMost(n: int, m: int, t: int, back: int, bp: nat)
    requires IsRounded(m, 10000 + bp, t) && IsRounded(n, 10000, back)
    requires t * (10000 + bp) - m == t * 10000 - n
    ensures 20000 * Abs(back - t) <= 20000 + bp
  {
  }
}

/**
 * Amounts travel as floating-point major units. Every operation is taken over
 * reals with a relative error of at most 2^-53 (section 4.3 of IEEE 754); the
 * errors d0.. are the ones the machine happened to make, d0 in reading 1e-9.
 */
module Cents {

  const UNIT: real := 1.0 / 9007199254740992.0
  const EXACT: int := 0x4_0000_0000_0000

  predicate Small(d: real) { -UNIT <= d <= UNIT }

  /** c / 100 (src/core/money.ts). */
  function CentsToAmount(c: int, d1: real): real {
    c as real / 100.0 * (1.0 + d1)
  }

  /** Math.round(amount * 100 + (amount >= 0 ? 1e-9 : -1e-9) * 100) (src/core/signing.ts). */
  function ToCents(amount: real, d0: real, d2: real, d3: real, d4: real): int {
    (Sum(amount * 100.0, Nudge(amount >= 0.0, d0, d3), d2, d4) + 0.5).Floor
  }

  /** A product rounded, and what is added to it, rounded again. */
  function Sum(product: real, nudge: real, d2: real, d4: real): real {
    (product * (1.0 + d2) + nudge) * (1.0 + d4)
  }

  function Nudge(up: bool, d0: real, d3: real): real {
    var nano := 0.000000001 * (1.0 + d0);
    (if up then nano else -nano) * 100.0 * (1.0 + d3)
  }

  /** x * (1 + d) stays within |x| * 2^-53 of x. */
  lemma Error(x: real, m: real, d: real, e: real)
    requires Small(d) && -m <= x <= m && m * UNIT <= e
    ensures -e <= x * (1.0 + d) - x <= e
  {
    assert x * (1.0 + d) - x == x * d;
    Product(x, m, d, UNIT);
  }

  lemma Product(x: real, m: real, d: real, u: real)
    requires -m <= x <= m && -u <= d <= u
    ensures -(m * u) <= x * d <= m * u
  {
    var y, e := if x >= 0.0 then x else -x, if d >= 0.0 then d else -d;
    Mono(y, e, u);
    Mono(u, y, m);
    assert y * e <= y * u && y * u == u * y && u * y <= u * m && u * m == m * u;
    assert x * d == y * e || x * d == -(y * e) by {
      SignsOut(x, d);
    }
    Mono(y, 0.0, e);
  }

  lemma SignsOut(x: real, d: real)
    ensures (-x) * d == -(x * d) && x * (-d) == -(x * d) && (-x) * (-d) == x * d
  {
  }

  lemma Mono(a: real, x: real, y: real)
    requires a >= 0.0 && x <= y
    ensures a * x <= a * y
  {
    assert a * (y - x) >= 0.0;
    assert a * (y - x) == a * y - a * x;
  }

  lemma NudgeIsSmall(up: bool, d0: real, d3: real)
    requires Small(d0) && Small(d3)
    ensures -0.001 <= Nudge(up, d0, d3) <= 0.001
  {
    var nano := 0.000000001 * (1.0 + d0);
    Error(0.000000001, 0.000000001, d0, 0.000000001);
    var e := (if up then nano else -nano) * 100.0;
    Error(e, 0.0000002, d3, 0.0000002);
  }

  /** Three operations on at most 2^50, each within one part in 2^53, stay within 0.4 together. */
  lemma StaysNear(c: real, a: real, nudge: real, d1: real, d2: real, d4: real)
    requires -1125899906842624.0 <= c <= 1125899906842624.0 && -0.001 <= nudge <= 0.001
    requires a == c * (1.0 + d1) && Small(d1) && Small(d2) && Small(d4)
    ensures -0.4 <= Sum(a, nudge, d2, d4) - c <= 0.4
  {
    hide Small;
    var b := a * (1.0 + d2);
    var s := (b + nudge) * (1.0 + d4);
    Error(c, 1125899906842624.0, d1, 0.125);
    assert -0.125 <= a - c <= 0.125;
    Error(a, 1125899906842625.0, d2, 0.126);
    assert -0.126 <= b - a <= 0.126;
    Error(b + nudge, 1125899906842626.0, d4, 0.127);
    assert -0.127 <= s - (b + nudge) <= 0.127;
    Near(c, a, b, nudge, s);
  }

  lemma Near(c: real, a: real, b: real, nudge: real, s: real)
    requires -0.125 <= a - c <= 0.125 && -0.126 <= b - a <= 0.126 && -0.127 <= s - (b + nudge) <= 0.127
    requires -0.001 <= nudge <= 0.001
    ensures -0.4 <= s - c <= 0.4
  {
  }

  /** Cents survive the trip through a float, whatever rounding errors were made. */
  lemma CentsRoundTrip(c: int, d0: real, d1: real, d2: real, d3: real, d4: real)
    requires -EXACT <= c <= EXACT
    requires Small(d0) && Small(d1) && Small(d2) && Small(d3) && Small(d4)
    ensures ToCents(CentsToAmount(c, d1), d0, d2, d3, d4) == c
  {
    hide Nudge, Small, Sum;
    var amount := CentsToAmount(c, d1);
    Hundredfold(c as real, 1.0 + d1);
    assert amount * 100.0 == c as real * (1.0 + d1);
    hide CentsToAmount;
    NudgeIsSmall(amount >= 0.0, d0, d3);
    StaysNear(c as real, amount * 100.0, Nudge(amount >= 0.0, d0, d3), d1, d2, d4);
  }

  lemma Hundredfold(x: real, y: real)
    ensures x / 100.0 * y * 100.0 == x * y
  {
  }

  // -- half cents ----------------------------------------------------------

  lemma NudgeDecides(up: bool, d0: real, d3: real)
    requires Small(d0) && Small(d3)
    ensures if up then 0.000000099 <= Nudge(up, d0, d3) <= 0.000000101
            else -0.000000101 <= Nudge(up, d0, d3) <= -0.000000099
  {
    var nano := 0.000000001 * (1.0 + d0);
    Error(0.000000001, 0.000000001, d0, 0.000000000001);
    var e := (if up then nano else -nano) * 100.0;
    Error(e, 0.0000002, d3, 0.0000000001);
  }

  /** Up to 2^28 cents the three operations stay within less than what is added. */
  lemma StaysNearer(c: real, a: real, nudge: real, d1: real, d2: real, d4: real)
    requires -268435457.0 <= c <= 268435457.0 && -0.000000101 <= nudge <= 0.000000101
    requires a == c * (1.0 + d1) && Small(d1) && Small(d2) && Small(d4)
    ensures -0.00000009 <= Sum(a, nudge, d2, d4) - c - nudge <= 0.00000009
  {
    hide Small;
    var b := a * (1.0 + d2);
    var s := (b + nudge) * (1.0 + d4);
    Error(c, 268435457.0, d1, 0.00000003);
    assert -0.00000003 <= a - c <= 0.00000003;
    Error(a, 268435458.0, d2, 0.00000003);
    assert -0.00000003 <= b - a <= 0.00000003;
    Error(b + nudge, 268435459.0, d4, 0.00000003);
    assert -0.00000003 <= s - (b + nudge) <= 0.00000003;
  }

  /** The amount of n cents and a half, away from zero, as a float has it. */
  function HalfCent(up: bool, n: nat, d1: real): real {
    (if up then n as real + 0.5 else -(n as real + 0.5)) / 100.0 * (1.0 + d1)
  }

  /**
   * A half cent, written with three decimals and drifted to either side, rounds
   * away from zero up to 2^28 cents: that is what adding 1e-9 is for.
   */
  lemma HalfCentRoundsAway(up: bool, n: nat, d0: real, d1: real, d2: real, d3: real, d4: real)
    requires n <= 0x1000_0000
    requires Small(d0) && Small(d1) && Small(d2) && Small(d3) && Small(d4)
    ensures ToCents(HalfCent(up, n, d1), d0, d2, d3, d4) == if up then n + 1 else -(n + 1)
  {
    hide Nudge, Small, Sum;
    var c := if up then n as real + 0.5 else -(n as real + 0.5);
    var amount := HalfCent(up, n, d1);
    Hundredfold(c, 1.0 + d1);
    assert amount * 100.0 == c * (1.0 + d1);
    KeepsSign(c, d1, amount);
    assert amount >= 0.0 <==> up;
    hide HalfCent;
    NudgeDecides(up, d0, d3);
    StaysNearer(c, amount * 100.0, Nudge(up, d0, d3), d1, d2, d4);
  }

  lemma KeepsSign(c: real, d1: real, amount: real)
    requires amount * 100.0 == c * (1.0 + d1) && Small(d1) && (c >= 0.5 || c <= -0.5)
    ensures amount >= 0.0 <==> c >= 0.5
  {
    var k := 1.0 + d1;
    assert 0.5 <= k <= 1.5;
    if c >= 0.5 {
      Mono(k, 0.0, c);
    } else {
      Mono(k, c, -0.5);
    }
  }
}

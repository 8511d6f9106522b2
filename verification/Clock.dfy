/** The server clock offset learned from response Date headers (src/core/clock.ts). */
module Clock {

  /** Milliseconds between a server Date and the local clock, half a round trip earlier. */
  function Estimate(server: real, roundTrip: real, local: real): real {
    server + roundTrip / 2.0 - local
  }

  function Min8(n: nat): nat { if n < 8 then n else 8 }

  /** The offset after the n-th sample, n counted from one. */
  function Learned(offset: real, n: nat, estimate: real): real
    requires n > 0
  {
    if n == 1 then estimate else offset + (estimate - offset) / Min8(n) as real
  }

  class ServerCorrectedClock {
    var offset: real
    var samples: nat

    constructor ()
      ensures offset == 0.0 && samples == 0
    {
      offset, samples := 0.0, 0;
    }

    method Learn(server: real, roundTrip: real, local: real)
      modifies this
      ensures samples == old(samples) + 1
      ensures offset == Learned(old(offset), samples, Estimate(server, roundTrip, local))
    {
      var estimate := server + roundTrip / 2.0 - local;
      samples := samples + 1;
      offset := if samples == 1 then estimate else offset + (estimate - offset) / Min8(samples) as real;
    }
  }

  /** The offset after a clock has been fed these estimates, oldest first. */
  function Offset(es: seq<real>): real {
    if es == [] then 0.0 else Learned(Offset(es[..|es| - 1]), |es|, es[|es| - 1])
  }

  function Sum(es: seq<real>): real {
    if es == [] then 0.0 else Sum(es[..|es| - 1]) + es[|es| - 1]
  }

  /** The offset never leaves the range of the estimates seen. */
  lemma {:induction false} OffsetWithinEstimates(es: seq<real>, lo: real, hi: real)
    requires es != [] && forall i :: 0 <= i < |es| ==> lo <= es[i] <= hi
    ensures lo <= Offset(es) <= hi
  {
    if |es| > 1 {
      var p := es[..|es| - 1];
      OffsetWithinEstimates(p, lo, hi);
      Between(Offset(p), es[|es| - 1], Min8(|es|), lo, hi);
    }
  }

  lemma Between(a: real, b: real, n: nat, lo: real, hi: real)
    requires n >= 1 && lo <= a <= hi && lo <= b <= hi
    ensures lo <= a + (b - a) / n as real <= hi
  {
    var k := n as real;
    var x := (b - a) / k;
    assert x * k == b - a;
    if x >= 0.0 {
      Grows(x, k);
    } else {
      Grows(-x, k);
      assert -x * k == -(x * k);
    }
  }

  lemma Grows(x: real, k: real)
    requires x >= 0.0 && k >= 1.0
    ensures x * k >= x
  {
  }

  /** Up to the eighth sample the offset is their exact mean. */
  lemma {:induction false} FirstEightAreAveraged(es: seq<real>)
    requires 0 < |es| <= 8
    ensures Offset(es) * |es| as real == Sum(es)
  {
    if |es| == 1 {
      assert Sum(es[..0]) == 0.0;
    } else {
      var n := |es| as real;
      var p := es[..|es| - 1];
      var b := es[|es| - 1];
      FirstEightAreAveraged(p);
      assert (b - Offset(p)) / n * n == b - Offset(p);
      assert Offset(es) * n == Offset(p) * n + (b - Offset(p));
      assert Offset(p) * n == Offset(p) * (|p| as real) + Offset(p);
    }
  }

  function Pow(x: real, k: nat): real { if k == 0 then 1.0 else x * Pow(x, k - 1) }

  function Repeat(truth: real, k: nat): seq<real> { seq(k, _ => truth) }

  /** Exact samples shrink whatever error there was by a factor of 7/8 each. */
  lemma {:induction false} ErrorShrinks(es: seq<real>, truth: real, k: nat)
    requires |es| >= 7
    ensures Offset(es + Repeat(truth, k)) - truth == Pow(7.0 / 8.0, k) * (Offset(es) - truth)
  {
    hide Offset, Sum, Learned;
    if k == 0 {
      assert es + Repeat(truth, 0) == es;
      assert Pow(7.0 / 8.0, 0) == 1.0;
    } else {
      ErrorShrinks(es, truth, k - 1);
      OneMore(es + Repeat(truth, k - 1), truth);
      assert es + Repeat(truth, k) == es + Repeat(truth, k - 1) + [truth];
      var e, f, g := Offset(es) - truth, Pow(7.0 / 8.0, k - 1), Pow(7.0 / 8.0, k);
      assert g == 7.0 / 8.0 * f;
      hide Pow;
      Shrink(Offset(es + Repeat(truth, k - 1)), truth, f, g, e);
    }
  }

  lemma OneMore(es: seq<real>, truth: real)
    requires |es| >= 7
    ensures Offset(es + [truth]) == Offset(es) + (truth - Offset(es)) / 8.0
  {
    assert (es + [truth])[..|es|] == es;
  }

  lemma Shrink(offset: real, truth: real, f: real, g: real, e: real)
    requires offset - truth == f * e && g == 7.0 / 8.0 * f
    ensures offset + (truth - offset) / 8.0 - truth == g * e
  {
    assert g * e == 7.0 / 8.0 * (f * e);
  }
}

/** The approximate yield used throughout the report: a gain expressed as a
    percentage of the implied starting value `amount - gain`. */
module Yields {

  /** An IEEE quotient that cannot be NaN here: either a finite value or an
      infinity of either sign. */
  datatype Ratio = Finite(value: real) | PosInfinity | NegInfinity {
    /** The `val > 0` test applied to the quotient. */
    predicate IsPositive() {
      match this
      case Finite(v) => v > 0.0
      case PosInfinity => true
      case NegInfinity => false
    }
  }

  /** `amount != 0 ? gain / (amount - gain) * 100 : 0`. The guard tests the amount,
      not the base `amount - gain`: when the two are equal and non-zero the
      quotient is an infinity with the sign of the gain. */
  function ApproxYield(gain: real, amount: real): (r: Ratio)
    ensures amount == 0.0 ==> r == Finite(0.0)
    ensures r.Finite? <==> amount == 0.0 || amount != gain
    ensures !r.Finite? ==> (r.PosInfinity? <==> gain > 0.0)
    // the starting value grown by the yield gives back the amount
    ensures r.Finite? && amount != 0.0 ==> (amount - gain) * (1.0 + r.value / 100.0) == amount
  {
    if amount == 0.0 then Finite(0.0)
    else if amount - gain == 0.0 then (if gain > 0.0 then PosInfinity else NegInfinity)
    else
      var base := amount - gain;
      var y := gain / base * 100.0;
      assert base * (y / 100.0) == gain by {
        assert y / 100.0 == gain / base;
      }
      Finite(y)
  }

  /** On a positive starting value the yield has the sign of the gain. */
  lemma YieldSignFollowsGain(gain: real, amount: real)
    requires amount != 0.0 && amount - gain > 0.0
    ensures ApproxYield(gain, amount).Finite?
    ensures ApproxYield(gain, amount).value > 0.0 <==> gain > 0.0
    ensures ApproxYield(gain, amount).value == 0.0 <==> gain == 0.0
  {
    var base := amount - gain;
    var y := ApproxYield(gain, amount).value;
    assert base * (1.0 + y / 100.0) == amount;
    assert base * (y / 100.0) == gain;
    if y > 0.0 {
      assert base * (y / 100.0) > 0.0;
    } else if y < 0.0 {
      assert base * (y / 100.0) < 0.0;
    }
  }

  /** The guard lets a zero starting value through: a holding whose whole value is
      this month's gain gets an infinite yield, not 0. */
  lemma ZeroBaseGivesInfinity()
    ensures ApproxYield(100.0, 100.0) == PosInfinity
    ensures ApproxYield(-5.0, -5.0) == NegInfinity
  {
  }
}

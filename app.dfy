/** The bill-predictor page of the Streamlit app: extrapolation of the next
    month's units from the last three readings, and the "Predict Bill" button
    that stores a prediction in the session state. */
module App {
  import opened Wrappers

  // ---------------------------------------------------------------------
  // Rounding and averaging, as Python and NumPy do them
  // ---------------------------------------------------------------------

  /** Python's `round(x)` with no digits: the nearest integer, ties to even. */
  function RoundHalfEven(x: real): (r: int)
    ensures x - 0.5 <= r as real <= x + 0.5
    ensures (r as real == x - 0.5 || r as real == x + 0.5) ==> r % 2 == 0
  {
    var f := x.Floor;
    var frac := x - f as real;
    if frac < 0.5 then f
    else if frac > 0.5 then f + 1
    else if f % 2 == 0 then f
    else f + 1
  }

  /** The two properties of RoundHalfEven's contract determine it: no other
      integer is within one half of x and even on a tie. */
  lemma RoundHalfEvenUnique(x: real, k: int)
    requires x - 0.5 <= k as real <= x + 0.5
    requires (k as real == x - 0.5 || k as real == x + 0.5) ==> k % 2 == 0
    ensures k == RoundHalfEven(x)
  {
    var r := RoundHalfEven(x);
    assert -1 <= k - r <= 1;
  }

  function Sum(xs: seq<int>): (total: int)
  {
    if xs == [] then 0 else Sum(xs[..|xs| - 1]) + xs[|xs| - 1]
  }

  /** `np.mean` of a non-empty list of integers, exactly. */
  function Mean(xs: seq<int>): (avg: real)
    requires |xs| > 0
  {
    Sum(xs) as real / |xs| as real
  }

  // ---------------------------------------------------------------------
  // Trend extrapolation (app.py, lines 47-51)
  // ---------------------------------------------------------------------

  /** The predicted units for next month from the readings u3 (three months
      ago), u2 and u1 (last month): last month plus the mean of the two
      month-over-month differences, rounded half to even and clamped at 0.
      The `except` branch of the source, which falls back to u1, cannot be
      taken for whole-number readings and is not a branch here. */
  function NextUnits(u3: nat, u2: nat, u1: nat): (next: nat)
  {
    var diffs := [u2 - u3, u1 - u2];
    var avgDiff := Mean(diffs);
    var rounded := RoundHalfEven(u1 as real + avgDiff);
    if rounded < 0 then 0 else rounded
  }

  /** n/2 rounded half to even, in integer arithmetic only. */
  function HalfEvenOfHalf(n: int): (k: int)
  {
    if n % 2 == 0 then n / 2
    else if (n / 2) % 2 == 0 then n / 2
    else n / 2 + 1
  }

  /** An integer-only reference for the prediction: the deltas telescope, so
      the working value is (3*u1 - u3)/2, rounded half to even, clamped at 0. */
  function NextUnitsInt(u3: nat, u1: nat): (next: nat)
  {
    var k := HalfEvenOfHalf(3 * u1 - u3);
    if k < 0 then 0 else k
  }

  lemma HalfEvenOfHalfIsRounding(n: int)
    ensures HalfEvenOfHalf(n) == RoundHalfEven(n as real / 2.0)
  {
    var x := n as real / 2.0;
    var q := n / 2;
    assert n == 2 * q + n % 2;
    if n % 2 == 0 {
      assert HalfEvenOfHalf(n) == RoundHalfEven(x) by {
        assert x == q as real;
        RoundHalfEvenUnique(x, q);
      }
    } else {
      assert HalfEvenOfHalf(n) == RoundHalfEven(x) by {
        assert n % 2 == 1;
        assert x == q as real + 0.5;
        RoundHalfEvenUnique(x, HalfEvenOfHalf(n));
      }
    }
  }

  lemma MeanOfTwo(a: int, b: int)
    ensures Mean([a, b]) == (a + b) as real / 2.0
  {
    assert [a, b][..1] == [a];
    assert [a][..0] == [];
    assert Sum([a, b]) == Sum([a]) + b;
  }

  /** The real-valued computation of the source equals the integer reference
      for every reading. */
  lemma NextUnitsClosedForm(u3: nat, u2: nat, u1: nat)
    ensures NextUnits(u3, u2, u1) == NextUnitsInt(u3, u1)
  {
    MeanOfTwo(u2 - u3, u1 - u2);
    var n := 3 * u1 - u3;
    assert u1 as real + Mean([u2 - u3, u1 - u2]) == n as real / 2.0;
    HalfEvenOfHalfIsRounding(n);
  }

  /** The middle reading cancels out of the mean of the two deltas. */
  lemma NextUnitsIgnoresMiddleReading(u3: nat, u2: nat, u2': nat, u1: nat)
    ensures NextUnits(u3, u2, u1) == NextUnits(u3, u2', u1)
  {
    NextUnitsClosedForm(u3, u2, u1);
    NextUnitsClosedForm(u3, u2', u1);
  }

  /** The prediction is clamped to 0 exactly when (3*u1 - u3)/2 rounds to 0
      or below, i.e. when 3*u1 - u3 is at most 1 (1/2 rounds to 0). */
  lemma NextUnitsZeroIff(u3: nat, u2: nat, u1: nat)
    ensures NextUnits(u3, u2, u1) == 0 <==> 3 * u1 - u3 <= 1
  {
    NextUnitsClosedForm(u3, u2, u1);
  }

  /** With three equal readings the prediction is that same reading. */
  lemma NextUnitsConstant(u: nat)
    ensures NextUnits(u, u, u) == u
  {
    NextUnitsClosedForm(u, u, u);
    assert 3 * u - u == 2 * u;
  }

  /** The input form's defaults 200, 220, 240 predict 260. */
  lemma NextUnitsDefaults()
    ensures NextUnits(200, 220, 240) == 260
  {
    NextUnitsClosedForm(200, 220, 240);
  }

  /** Ties round to even: 2 + 0.5 gives 2, 1 + 0.5 gives 2. */
  lemma NextUnitsTiesToEven(u2: nat)
    ensures NextUnits(1, u2, 2) == 2
    ensures NextUnits(0, u2, 1) == 2
  {
    NextUnitsClosedForm(1, u2, 2);
    NextUnitsClosedForm(0, u2, 1);
  }

  /** A steep decline is clamped: 500, 100, 50 predict 0. */
  lemma NextUnitsClamped()
    ensures NextUnits(500, 100, 50) == 0
  {
    NextUnitsZeroIff(500, 100, 50);
  }

  /** Strictly rising consumption predicts more than last month. */
  lemma NextUnitsIncreasing(u3: nat, u2: nat, u1: nat)
    requires u3 < u2 < u1
    ensures NextUnits(u3, u2, u1) > u1
  {
    NextUnitsClosedForm(u3, u2, u1);
  }

  /** Strictly falling consumption predicts at most last month, and strictly
      less unless last month was already 0. */
  lemma NextUnitsDecreasing(u3: nat, u2: nat, u1: nat)
    requires u3 > u2 > u1
    ensures NextUnits(u3, u2, u1) <= u1
    ensures u1 > 0 ==> NextUnits(u3, u2, u1) < u1
  {
    NextUnitsClosedForm(u3, u2, u1);
  }

  // ---------------------------------------------------------------------
  // The "Predict Bill" button (app.py, lines 42-55)
  // ---------------------------------------------------------------------

  /** The trained single-feature regression: units to bill. */
  datatype Regression = Regression(predict: nat -> real)

  /** What one press of the button produces. */
  datatype PredictOutcome =
    | ModelUnavailable              // "No trained model found" is shown
    | Predicted(units: nat, bill: real)

  /** The outcome of one press: an error when no model was loaded, otherwise
      the extrapolated units and the regression's bill for them. */
  function PredictBill(u3: nat, u2: nat, u1: nat, model: Option<Regression>): (r: PredictOutcome)
    ensures r.ModelUnavailable? <==> model.None?
    ensures r.Predicted? ==>
      r.units == NextUnitsInt(u3, u1) && r.bill == model.value.predict(r.units)
  {
    NextUnitsClosedForm(u3, u2, u1);
    match model
    case None => ModelUnavailable
    case Some(m) =>
      var nextUnits := NextUnits(u3, u2, u1);
      Predicted(nextUnits, m.predict(nextUnits))
  }

  /** The two session-state entries the page writes, `pred_val` and
      `pred_units`; None while the key is absent. */
  class Session {
    var predVal: Option<real>
    var predUnits: Option<nat>

    constructor ()
      ensures predVal == None && predUnits == None
    {
      predVal := None;
      predUnits := None;
    }

    /** One press of "Predict Bill". Without a model the page only shows an
        error and the session state is left as it was; with one, both
        entries are overwritten by the fresh prediction. */
    method PressPredict(u3: nat, u2: nat, u1: nat, model: Option<Regression>)
      returns (outcome: PredictOutcome)
      modifies this
      ensures outcome == PredictBill(u3, u2, u1, model)
      ensures model.None? ==> predVal == old(predVal) && predUnits == old(predUnits)
      ensures outcome.Predicted? ==>
        predUnits == Some(outcome.units) && predVal == Some(outcome.bill)
    {
      if model.None? {
        outcome := ModelUnavailable;
      } else {
        var nextUnits := NextUnits(u3, u2, u1);
        var predictedBill := model.value.predict(nextUnits);
        predVal := Some(predictedBill);
        predUnits := Some(nextUnits);
        outcome := Predicted(nextUnits, predictedBill);
      }
    }
  }

  /** A client of Session: what the page's state looks like across presses. */
  method SessionScenario(m: Regression)
  {
    var s := new Session();
    var o := s.PressPredict(200, 220, 240, Some(m));
    NextUnitsDefaults();
    assert s.predUnits == Some(260) && s.predVal == Some(m.predict(260));
    o := s.PressPredict(500, 100, 50, None);
    assert o == ModelUnavailable && s.predUnits == Some(260);
    o := s.PressPredict(500, 100, 50, Some(m));
    NextUnitsClamped();
    assert s.predUnits == Some(0);
  }
}

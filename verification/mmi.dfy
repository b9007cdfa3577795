/**
 * The Momentum vs Manipulation Index (`calc_mmi`): a composite score of
 * institutional flows (fii, dii), the put-call-ratio proxy (pcr) and the
 * volatility index (vix), rounded to hundredths and put into one of three
 * bands, or "Undefined" when vix or pcr is zero.
 */
module Mmi {
  import opened Rounding

  datatype Status = MomentumDriven | Balanced | ManipulationRisk | Undefined {

    /** The label the script returns and prints. */
    function Text(): string
    {
      match this
      case MomentumDriven => "Momentum Driven \U{1F7E2}"
      case Balanced => "Balanced \U{26AA}"
      case ManipulationRisk => "Manipulation Risk \U{1F534}"
      case Undefined => "Undefined"
    }

    /**
     * Position of a band, from most to least manipulation-prone. Undefined
     * is not a band; it is given 0 only so that the function is total, and
     * no lemma compares it.
     */
    function Rank(): nat
    {
      match this
      case ManipulationRisk => 0
      case Balanced => 1
      case MomentumDriven => 2
      case Undefined => 0
    }
  }

  /** The pair `(mmi, status)` that `calc_mmi` returns. */
  datatype Index = Index(score: real, status: Status)

  function Abs(x: real): real
  {
    if x < 0.0 then -x else x
  }

  /** The score's divisor can be zero only after the zero guard has let the inputs through. */
  predicate Computable(fii: real, dii: real, pcr: real, vix: real)
  {
    vix != 0.0 && pcr != 0.0 ==> fii - dii + 1.0 != 0.0
  }

  /** The unrounded score, with the divisor written as the script has it: `abs(fii - dii + 1)`. */
  function RawScore(fii: real, dii: real, pcr: real, vix: real): real
    requires vix != 0.0 && pcr != 0.0 && fii - dii + 1.0 != 0.0
  {
    ((fii + dii) / Abs(fii - dii + 1.0)) * (1.0 / (vix / 15.0)) * (1.0 / pcr)
  }

  /** The three-way banding of a rounded score. */
  function Classify(score: real): (st: Status)
    ensures st != Undefined
    ensures st == MomentumDriven <==> score > 1.5
    ensures st == Balanced <==> 1.0 <= score <= 1.5
    ensures st == ManipulationRisk <==> score < 1.0
  {
    if score > 1.5 then MomentumDriven
    else if score >= 1.0 then Balanced
    else ManipulationRisk
  }

  /** A higher score never lands in a lower band. */
  lemma ClassifyMonotone(a: real, b: real)
    requires a <= b
    ensures Classify(a).Rank() <= Classify(b).Rank()
  {
  }

  /** `calc_mmi(fii, dii, pcr, vix)`. */
  function CalcMmi(fii: real, dii: real, pcr: real, vix: real): (r: Index)
    requires Computable(fii, dii, pcr, vix)
    ensures r.status == Undefined <==> vix == 0.0 || pcr == 0.0
    ensures r.status == Undefined ==> r.score == 0.0
    ensures r.status != Undefined ==>
      && IsCents(r.score)
      && -0.005 <= r.score - RawScore(fii, dii, pcr, vix) <= 0.005
      && r.status == Classify(r.score)
  {
    if vix == 0.0 || pcr == 0.0 then Index(0.0, Undefined)
    else
      var mmi := Round2(RawScore(fii, dii, pcr, vix));
      Index(mmi, Classify(mmi))
  }

  /** The score in closed form: 15 (fii + dii) / (|fii - dii + 1| vix pcr). */
  lemma RawScoreClosedForm(fii: real, dii: real, pcr: real, vix: real)
    requires vix != 0.0 && pcr != 0.0 && fii - dii + 1.0 != 0.0
    ensures RawScore(fii, dii, pcr, vix)
      == 15.0 * (fii + dii) / (Abs(fii - dii + 1.0) * vix * pcr)
  {
  }

  /** A score far enough from a band edge keeps its band whatever rounding to hundredths does. */
  lemma StatusOfRawScore(fii: real, dii: real, pcr: real, vix: real)
    requires vix != 0.0 && pcr != 0.0 && fii - dii + 1.0 != 0.0
    ensures RawScore(fii, dii, pcr, vix) > 1.505 ==> CalcMmi(fii, dii, pcr, vix).status == MomentumDriven
    ensures 1.005 <= RawScore(fii, dii, pcr, vix) <= 1.495 ==> CalcMmi(fii, dii, pcr, vix).status == Balanced
    ensures RawScore(fii, dii, pcr, vix) < 0.995 ==> CalcMmi(fii, dii, pcr, vix).status == ManipulationRisk
  {
  }

  /** Among computable inputs, a higher unrounded score never gives a lower band. */
  lemma StatusMonotoneInRawScore(f1: real, d1: real, p1: real, v1: real, f2: real, d2: real, p2: real, v2: real)
    requires v1 != 0.0 && p1 != 0.0 && f1 - d1 + 1.0 != 0.0
    requires v2 != 0.0 && p2 != 0.0 && f2 - d2 + 1.0 != 0.0
    requires RawScore(f1, d1, p1, v1) <= RawScore(f2, d2, p2, v2)
    ensures CalcMmi(f1, d1, p1, v1).status.Rank() <= CalcMmi(f2, d2, p2, v2).status.Rank()
  {
    Round2Monotone(RawScore(f1, d1, p1, v1), RawScore(f2, d2, p2, v2));
  }

  /** With positive vix and pcr, a combined net outflow (fii + dii <= 0) is always "Manipulation Risk". */
  lemma NetOutflowIsManipulationRisk(fii: real, dii: real, pcr: real, vix: real)
    requires vix > 0.0 && pcr > 0.0 && fii - dii + 1.0 != 0.0
    requires fii + dii <= 0.0
    ensures CalcMmi(fii, dii, pcr, vix).status == ManipulationRisk
  {
    var flows := (fii + dii) / Abs(fii - dii + 1.0);
    assert flows <= 0.0;
    assert flows * (1.0 / (vix / 15.0)) <= 0.0;
    assert RawScore(fii, dii, pcr, vix) <= 0.0;
  }

  /** Heavy combined buying against low volatility: fii 1000, dii 800, pcr 0.9, vix 12. */
  lemma StrongInflowScenario()
    ensures CalcMmi(1000.0, 800.0, 0.9, 12.0).status == MomentumDriven
  {
    StatusOfRawScore(1000.0, 800.0, 0.9, 12.0);
  }

  /** Foreign buying against domestic selling: fii 500, dii -200, pcr 1.05, vix 14.6. */
  lemma MixedFlowScenario()
    ensures CalcMmi(500.0, -200.0, 1.05, 14.6).status == ManipulationRisk
  {
    StatusOfRawScore(500.0, -200.0, 1.05, 14.6);
  }

  /** The divisor as written vanishes when fii - dii == -1, e.g. fii 0, dii 1, so the script divides by zero there. */
  lemma UnitGapDividesByZero()
    ensures !Computable(0.0, 1.0, 1.0, 15.0)
    ensures CorrectedCalcMmi(0.0, 1.0, 1.0, 15.0).status == ManipulationRisk
  {
    assert CorrectedRawScore(0.0, 1.0, 1.0, 15.0) == 0.5;
  }

  /** The score with the divisor `|fii - dii| + 1`, which is at least 1 for every input. */
  function CorrectedRawScore(fii: real, dii: real, pcr: real, vix: real): real
    requires vix != 0.0 && pcr != 0.0
  {
    ((fii + dii) / (Abs(fii - dii) + 1.0)) * (1.0 / (vix / 15.0)) * (1.0 / pcr)
  }

  /** `calc_mmi` with the divisor `|fii - dii| + 1`: defined for every input. */
  function CorrectedCalcMmi(fii: real, dii: real, pcr: real, vix: real): (r: Index)
    ensures r.status == Undefined <==> vix == 0.0 || pcr == 0.0
    ensures r.status == Undefined ==> r.score == 0.0
    ensures r.status != Undefined ==>
      && IsCents(r.score)
      && -0.005 <= r.score - CorrectedRawScore(fii, dii, pcr, vix) <= 0.005
      && r.status == Classify(r.score)
  {
    if vix == 0.0 || pcr == 0.0 then Index(0.0, Undefined)
    else
      var mmi := Round2(CorrectedRawScore(fii, dii, pcr, vix));
      Index(mmi, Classify(mmi))
  }

  /** When foreign flow is at least domestic flow the two divisors coincide, and so do the results. */
  lemma CorrectedAgreesWhenFiiAtLeastDii(fii: real, dii: real, pcr: real, vix: real)
    requires fii >= dii
    ensures Computable(fii, dii, pcr, vix)
    ensures CorrectedCalcMmi(fii, dii, pcr, vix) == CalcMmi(fii, dii, pcr, vix)
  {
    assert Abs(fii - dii + 1.0) == Abs(fii - dii) + 1.0;
    if vix != 0.0 && pcr != 0.0 {
      assert CorrectedRawScore(fii, dii, pcr, vix) == RawScore(fii, dii, pcr, vix);
    }
  }
}

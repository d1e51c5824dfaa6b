/**
 * The clinical model `base_risk` and the lipid model `lipid_risk` (app.py, lines 75-81), and the
 * first two tabs, which turn their probability into a label with the tab's cutoffs
 * (app.py, lines 133-137 and 149-153).
 */
module Predictors {
  import opened Numerics
  import opened Categories

  /** `BASE_COEF`: intercept and coefficients of the clinical model. */
  const BaseIntercept: real := -2.8830
  const BaseBmiCoef: real := 0.1043
  const BaseFamDmCoef: real := 0.8860

  /** The clinical linear predictor. */
  function BaseScore(bmi: real, famDm: real): (z: real) {
    BaseIntercept + BaseBmiCoef * bmi + BaseFamDmCoef * famDm
  }

  /** `base_risk(bmi, fam_dm)`: a probability strictly between 0 and 1. */
  function BaseRisk(logistic: real -> real, bmi: real, famDm: real): (p: real)
    requires LogisticLaws(logistic)
    ensures 0.0 < p < 1.0
  {
    logistic(BaseScore(bmi, famDm))
  }

  /** The lipid linear predictor. */
  function LipidScore(tg: real, hdl: real): (z: real) {
    -2.837 + 2.431 * tg - 1.323 * hdl
  }

  /** `lipid_risk(tg, hdl)`: a probability strictly between 0 and 1. */
  function LipidRisk(logistic: real -> real, tg: real, hdl: real): (p: real)
    requires LogisticLaws(logistic)
    ensures 0.0 < p < 1.0
  {
    logistic(LipidScore(tg, hdl))
  }

  /** The clinical score grows strictly with BMI and with the family-history flag. */
  lemma BaseScoreIncreasing(bmi1: real, famDm1: real, bmi2: real, famDm2: real)
    requires bmi1 <= bmi2 && famDm1 <= famDm2
    ensures BaseScore(bmi1, famDm1) <= BaseScore(bmi2, famDm2)
    ensures bmi1 < bmi2 || famDm1 < famDm2 ==> BaseScore(bmi1, famDm1) < BaseScore(bmi2, famDm2)
  {
  }

  /** The lipid score grows strictly with triglycerides and falls strictly with HDL. */
  lemma LipidScoreMonotone(tg1: real, hdl1: real, tg2: real, hdl2: real)
    requires tg1 <= tg2 && hdl2 <= hdl1
    ensures LipidScore(tg1, hdl1) <= LipidScore(tg2, hdl2)
    ensures tg1 < tg2 || hdl2 < hdl1 ==> LipidScore(tg1, hdl1) < LipidScore(tg2, hdl2)
  {
  }

  /** Through an increasing logistic, the clinical probability grows strictly with BMI and the flag. */
  lemma BaseRiskIncreasing(logistic: real -> real, bmi1: real, famDm1: real, bmi2: real, famDm2: real)
    requires LogisticLaws(logistic)
    requires bmi1 <= bmi2 && famDm1 <= famDm2
    ensures BaseRisk(logistic, bmi1, famDm1) <= BaseRisk(logistic, bmi2, famDm2)
    ensures bmi1 < bmi2 || famDm1 < famDm2 ==> BaseRisk(logistic, bmi1, famDm1) < BaseRisk(logistic, bmi2, famDm2)
  {
    BaseScoreIncreasing(bmi1, famDm1, bmi2, famDm2);
  }

  /** Through an increasing logistic, the lipid probability grows with triglycerides and falls with HDL. */
  lemma LipidRiskMonotone(logistic: real -> real, tg1: real, hdl1: real, tg2: real, hdl2: real)
    requires LogisticLaws(logistic)
    requires tg1 <= tg2 && hdl2 <= hdl1
    ensures LipidRisk(logistic, tg1, hdl1) <= LipidRisk(logistic, tg2, hdl2)
    ensures tg1 < tg2 || hdl2 < hdl1 ==> LipidRisk(logistic, tg1, hdl1) < LipidRisk(logistic, tg2, hdl2)
  {
    LipidScoreMonotone(tg1, hdl1, tg2, hdl2);
  }

  /** The answer of the family-history radio button that sets the flag to 1. */
  const FamDmYes: string := "Да"

  /** The first tab's button: the clinical probability and its label under the cutoffs 0.388 and 0.607. */
  function ClinicalTab(logistic: real -> real, bmi: real, famDmLabel: string): (r: RiskResult)
    requires LogisticLaws(logistic)
    ensures 0.0 < r.probability < 1.0 && r.category.Known()
    ensures r.probability == BaseRisk(logistic, bmi, if famDmLabel == FamDmYes then 1.0 else 0.0)
    ensures r.category == Categorize(r.probability, ClinicalLow, ClinicalHigh)
  {
    var famDm := if famDmLabel == FamDmYes then 1.0 else 0.0;
    var p := BaseRisk(logistic, bmi, famDm);
    RiskResult(p, Categorize(p, ClinicalLow, ClinicalHigh))
  }

  /** The second tab's button: the lipid probability and its label under the cutoffs 0.35 and 0.689. */
  function LipidTab(logistic: real -> real, tg: real, hdl: real): (r: RiskResult)
    requires LogisticLaws(logistic)
    ensures 0.0 < r.probability < 1.0 && r.category.Known()
    ensures r.probability == LipidRisk(logistic, tg, hdl)
    ensures r.category == Categorize(r.probability, LipidLow, LipidHigh)
  {
    var p := LipidRisk(logistic, tg, hdl);
    RiskResult(p, Categorize(p, LipidLow, LipidHigh))
  }

  /** A larger BMI, or a family history, never lowers the clinical label. */
  lemma ClinicalCategoryMonotone(logistic: real -> real, bmi1: real, bmi2: real, label1: string, label2: string)
    requires LogisticLaws(logistic)
    requires bmi1 <= bmi2
    requires label1 == FamDmYes ==> label2 == FamDmYes
    ensures Rank(ClinicalTab(logistic, bmi1, label1).category) <= Rank(ClinicalTab(logistic, bmi2, label2).category)
  {
    var f1 := if label1 == FamDmYes then 1.0 else 0.0;
    var f2 := if label2 == FamDmYes then 1.0 else 0.0;
    BaseRiskIncreasing(logistic, bmi1, f1, bmi2, f2);
    CategorizeMonotone(BaseRisk(logistic, bmi1, f1), BaseRisk(logistic, bmi2, f2), ClinicalLow, ClinicalHigh);
  }

  /** More triglycerides, or less HDL, never lowers the lipid label. */
  lemma LipidCategoryMonotone(logistic: real -> real, tg1: real, hdl1: real, tg2: real, hdl2: real)
    requires LogisticLaws(logistic)
    requires tg1 <= tg2 && hdl2 <= hdl1
    ensures Rank(LipidTab(logistic, tg1, hdl1).category) <= Rank(LipidTab(logistic, tg2, hdl2).category)
  {
    LipidRiskMonotone(logistic, tg1, hdl1, tg2, hdl2);
    CategorizeMonotone(LipidRisk(logistic, tg1, hdl1), LipidRisk(logistic, tg2, hdl2), LipidLow, LipidHigh);
  }

  /**
   * The first tab's default inputs (BMI 27.0, no family history): the score is -0.0669, so the
   * probability lies just below 1/2, inside the Intermediate band [0.388, 0.607).
   */
  lemma ClinicalDefaultIsIntermediate(logistic: real -> real)
    requires LogisticLaws(logistic)
    ensures ClinicalTab(logistic, 27.0, "Нет").category == Intermediate
  {
    var z := BaseScore(27.0, 0.0);
    assert z == -0.0669;
    assert logistic(0.0) - logistic(z) <= (0.0 - z) / 4.0;
    assert logistic(z) < logistic(0.0);
  }

  /**
   * The second tab's default inputs (triglycerides 2.0, HDL 1.2): the score is 0.4374, so the
   * probability lies between 1/2 and 0.61, inside the Intermediate band [0.35, 0.689).
   */
  lemma LipidDefaultIsIntermediate(logistic: real -> real)
    requires LogisticLaws(logistic)
    ensures LipidTab(logistic, 2.0, 1.2).category == Intermediate
  {
    var z := LipidScore(2.0, 1.2);
    assert z == 0.4374;
    assert logistic(z) - logistic(0.0) <= (z - 0.0) / 4.0;
    assert logistic(0.0) < logistic(z);
  }
}

/**
 * The scoring part of `RiskAnalyzer` (services/social_service/app/ml/risk_analyzer.py).
 * The two classifiers are not modelled: their outputs, the class-probability dictionary
 * and the isolation probability, are inputs. What the analyzer keeps after loading is
 * configuration that no method changes, so it is a value here.
 */
module RiskAnalyzer {
  import opened Constants
  import opened Reductions

  datatype Analyzer = Analyzer(negWeight: real, thresholds: map<string, real>) {

    /** `max(p_relapse, p_craving, neg_weight * p_negative_mood)`. */
    function ComputeRiskScore(pRelapse: real, pCraving: real, pNegativeMood: real): (score: real)
      ensures pRelapse <= score && pCraving <= score && negWeight * pNegativeMood <= score
      ensures score == pRelapse || score == pCraving || score == negWeight * pNegativeMood
    {
      Max3(pRelapse, pCraving, negWeight * pNegativeMood)
    }

    /**
     * `analyze_message` once both models have run: the seven-entry prediction
     * dictionary that is handed to the message store.
     */
    function AnalyzeMessage(riskProbs: map<string, real>, pIsolation: real): (prediction: map<string, real>)
      ensures prediction.Keys == {KeyCraving, KeyRelapse, KeyNegativeMood, KeyNeutral, KeyToxic, KeyIsolation, KeyRiskScore}
      ensures prediction[KeyCraving] == ClassProbability(riskProbs, Craving)
      ensures prediction[KeyRelapse] == ClassProbability(riskProbs, Relapse)
      ensures prediction[KeyNegativeMood] == ClassProbability(riskProbs, NegativeMood)
      ensures prediction[KeyNeutral] == ClassProbability(riskProbs, Neutral)
      ensures prediction[KeyToxic] == ClassProbability(riskProbs, Toxic)
      ensures prediction[KeyIsolation] == pIsolation
      ensures prediction[KeyRiskScore] ==
        ComputeRiskScore(prediction[KeyRelapse], prediction[KeyCraving], prediction[KeyNegativeMood])
    {
      var pCraving := ClassProbability(riskProbs, Craving);
      var pRelapse := ClassProbability(riskProbs, Relapse);
      var pNegativeMood := ClassProbability(riskProbs, NegativeMood);
      var pNeutral := ClassProbability(riskProbs, Neutral);
      var pToxic := ClassProbability(riskProbs, Toxic);
      var riskScore := ComputeRiskScore(pRelapse, pCraving, pNegativeMood);
      map[KeyCraving := pCraving, KeyRelapse := pRelapse, KeyNegativeMood := pNegativeMood,
          KeyNeutral := pNeutral, KeyToxic := pToxic, KeyIsolation := pIsolation,
          KeyRiskScore := riskScore]
    }
  }

  /** With probabilities and weight in [0, 1] the score is a probability too. */
  lemma RiskScoreInUnitInterval(a: Analyzer, pRelapse: real, pCraving: real, pNegativeMood: real)
    requires 0.0 <= a.negWeight <= 1.0
    requires 0.0 <= pRelapse <= 1.0 && 0.0 <= pCraving <= 1.0 && 0.0 <= pNegativeMood <= 1.0
    ensures 0.0 <= a.ComputeRiskScore(pRelapse, pCraving, pNegativeMood) <= 1.0
  {
    assert 0.0 <= a.negWeight * pNegativeMood <= 1.0 * pNegativeMood;
  }

  /**
   * Raising any one probability never lowers the score. This holds for every weight:
   * with a negative weight the mood term is never the maximum of non-negative inputs.
   */
  lemma RiskScoreMonotone(a: Analyzer, pRelapse: real, pCraving: real, pNegativeMood: real,
                          pRelapse': real, pCraving': real, pNegativeMood': real)
    requires 0.0 <= pRelapse && 0.0 <= pCraving && 0.0 <= pNegativeMood
    requires pRelapse <= pRelapse' && pCraving <= pCraving' && pNegativeMood <= pNegativeMood'
    ensures a.ComputeRiskScore(pRelapse, pCraving, pNegativeMood) <= a.ComputeRiskScore(pRelapse', pCraving', pNegativeMood')
  {
    if a.negWeight >= 0.0 {
      assert a.negWeight * (pNegativeMood' - pNegativeMood) >= 0.0;
      assert a.negWeight * pNegativeMood <= a.negWeight * pNegativeMood';
    } else {
      assert a.negWeight * pNegativeMood <= 0.0;
    }
  }
}

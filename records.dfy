/** The shapes of a risk result (backend/models.py): a risk assessment and a
    clinical recommendation. Confidence is kept in hundredths, 0 to 100,
    for the [0, 1] range the response schema allows. */
module Records {

  /** Risk label, confidence in hundredths and severity. */
  datatype RiskAssessment = RiskAssessment(riskLabel: string, confidence: nat, severity: string)

  /** Dosing advice, alternative drugs, monitoring parameters, guideline
      reference and urgency. */
  datatype ClinicalRecommendation = ClinicalRecommendation(
    dosing: string,
    alternatives: seq<string>,
    monitoring: seq<string>,
    guidelineRef: string,
    urgency: string)

  /** A complete answer from one source: what `cpic_lookup_full` and the
      guideline database return. */
  datatype Guideline = Guideline(risk: RiskAssessment, recommendation: ClinicalRecommendation)

  /** The confidence bound of the response schema. */
  predicate ConfidenceInRange(r: RiskAssessment) { r.confidence <= 100 }
}

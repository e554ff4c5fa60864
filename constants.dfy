/**
 * Enumerations shared by the services (shared/core/constants.py), restricted to the
 * values the risk engine produces or compares against.
 */
module Constants {

  /** The four labels the fusion ladders produce. */
  datatype RiskLabel = HighRisk | ModerateRisk | IsolationOnly | LowRisk

  /** Direction of change reported by the trend detector. */
  datatype RiskTrend = Improving | Stable | Declining | RapidDecline

  /**
   * Conversation types (ConversationType in shared/core/constants.py). The message
   * table stores the type as free text, so the model keeps it a string.
   */
  const Buddy := "buddy"
  const Counselor := "counselor"
  const Group := "group"
  const Family := "family"

  /**
   * Rank of a label in the dashboard ordering (temporal_engine.py CASE expression):
   * 1 is the most urgent. The same rank serves as the severity order in the lemmas
   * about the fusion ladders (a smaller rank is a more severe label).
   */
  function Priority(riskLabel: RiskLabel): (rank: int)
    ensures 1 <= rank <= 4
  {
    match riskLabel
    case HighRisk => 1
    case ModerateRisk => 2
    case IsolationOnly => 3
    case LowRisk => 4
  }

  /** `a` is at least as severe as `b`. */
  predicate AtLeastAsSevere(a: RiskLabel, b: RiskLabel) {
    Priority(a) <= Priority(b)
  }

  /**
   * Class names of the risk classifier's output (RISK_ID2LABEL in app.py and
   * `risk_labels` in the service configuration).
   */
  const Craving := "CRAVING"
  const NegativeMood := "NEGATIVE_MOOD"
  const Neutral := "NEUTRAL"
  const Relapse := "RELAPSE"
  const Toxic := "TOXIC"

  /** `probs.get(name, 0.0)`: a class the classifier did not report has probability 0. */
  function ClassProbability(probs: map<string, real>, name: string): (p: real)
    ensures name !in probs ==> p == 0.0
    ensures name in probs ==> p == probs[name]
  {
    if name in probs then probs[name] else 0.0
  }

  /**
   * Keys of the prediction dictionary that the analyzer returns and that the
   * message store reads back (also the column names of the message table).
   */
  const KeyCraving := "p_craving"
  const KeyRelapse := "p_relapse"
  const KeyNegativeMood := "p_negative_mood"
  const KeyNeutral := "p_neutral"
  const KeyToxic := "p_toxic"
  const KeyIsolation := "p_isolation"
  const KeyRiskScore := "risk_score"
}

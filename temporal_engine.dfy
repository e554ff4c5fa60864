/**
 * The pure stages of the temporal risk aggregation engine
 * (services/social_service/app/db/temporal_engine.py): window metrics, trend
 * detection, engagement metrics and the user-level decision ladder. A user's
 * history is a sequence of stored message predictions, ordered by timestamp;
 * `now` is an explicit parameter.
 */
module TemporalEngine {
  import opened Wrappers
  import opened Constants
  import opened Reductions
  import opened RuleLadder
  import opened Utils

  /** One row of the message_predictions table. */
  datatype MessagePrediction = MessagePrediction(
    id: nat, messageText: string, timestamp: Timestamp,
    pCraving: real, pRelapse: real, pNegativeMood: real, pNeutral: real, pToxic: real,
    pIsolation: real, riskScore: real, conversationType: string)

  /** The columns `detect_trend` is asked about (`metric='risk_score'` or `'p_isolation'`). */
  datatype Metric = RiskScoreMetric | IsolationMetric

  function MetricValue(m: MessagePrediction, metric: Metric): real {
    match metric
    case RiskScoreMetric => m.riskScore
    case IsolationMetric => m.pIsolation
  }

  /** The column `[m[metric] for m in ms]`. */
  function MetricValues(ms: seq<MessagePrediction>, metric: Metric): (v: seq<real>)
    ensures |v| == |ms|
    ensures forall i :: 0 <= i < |ms| ==> v[i] == MetricValue(ms[i], metric)
  {
    seq(|ms|, i requires 0 <= i < |ms| => MetricValue(ms[i], metric))
  }

  /** `max(m[metric] for m in ms)`. */
  function MaxMetric(ms: seq<MessagePrediction>, metric: Metric): (x: real)
    requires |ms| > 0
    ensures forall m :: m in ms ==> MetricValue(m, metric) <= x
    ensures exists m :: m in ms && MetricValue(m, metric) == x
  {
    var v := MetricValues(ms, metric);
    var x := Max(v);
    assert exists i :: 0 <= i < |v| && v[i] == x;
    x
  }

  /** `np.mean([m[metric] for m in ms])`. */
  function MeanMetric(ms: seq<MessagePrediction>, metric: Metric): (x: real)
    requires |ms| > 0
    ensures x <= MaxMetric(ms, metric)
  {
    MeanAtMostMax(MetricValues(ms, metric));
    Mean(MetricValues(ms, metric))
  }

  /** With every value in [lo, hi], so is the mean. */
  lemma MeanMetricBounds(ms: seq<MessagePrediction>, metric: Metric, lo: real, hi: real)
    requires |ms| > 0
    requires forall m :: m in ms ==> lo <= MetricValue(m, metric) <= hi
    ensures lo <= MeanMetric(ms, metric) <= hi
  {
    MeanBounds(MetricValues(ms, metric), lo, hi);
  }

  // ---------------------------------------------------------------------------
  // compute_window_metrics

  /** `compute_window_metrics`' result record. */
  datatype WindowMetrics = WindowMetrics(
    avgRiskScore: real, maxRiskScore: real, avgIsolation: real,
    highRiskCount: nat, toxicIncidents: nat, messageCount: nat)

  const ZeroMetrics := WindowMetrics(0.0, 0.0, 0.0, 0, 0, 0)

  /** `m['timestamp'] >= cutoff`. */
  function OnOrAfter(cutoff: Timestamp): MessagePrediction -> bool {
    (m: MessagePrediction) => m.timestamp >= cutoff
  }

  /** `compute_window_metrics`' high-risk test: any one of the three axes over its fixed threshold. */
  predicate IsHighRiskMessage(m: MessagePrediction) {
    m.riskScore >= 0.7 || m.pRelapse >= 0.5 || m.pCraving >= 0.5
  }

  /** `compute_window_metrics`' toxic-incident test. */
  predicate IsToxicMessage(m: MessagePrediction) {
    m.pToxic >= 0.7
  }

  /** The messages inside a trailing window of `windowDays` days ending at `now`. */
  function Windowed(ms: seq<MessagePrediction>, windowDays: int, now: Timestamp): seq<MessagePrediction> {
    Filter(ms, OnOrAfter(WindowStart(windowDays, now)))
  }

  /** `compute_window_metrics(messages, window_days)`. */
  function ComputeWindowMetrics(ms: seq<MessagePrediction>, windowDays: int, now: Timestamp): (r: WindowMetrics)
    ensures r.messageCount == |Windowed(ms, windowDays, now)|
    ensures forall m :: m in Windowed(ms, windowDays, now) <==> m in ms && m.timestamp >= now - windowDays * MicrosPerDay
    ensures r == ZeroMetrics <==> Windowed(ms, windowDays, now) == []
    ensures r.highRiskCount == |Filter(Windowed(ms, windowDays, now), IsHighRiskMessage)| <= r.messageCount
    ensures r.toxicIncidents == |Filter(Windowed(ms, windowDays, now), IsToxicMessage)| <= r.messageCount
    ensures forall m :: m in Windowed(ms, windowDays, now) ==> m.riskScore <= r.maxRiskScore
    ensures r.messageCount > 0 ==> exists m :: m in Windowed(ms, windowDays, now) && m.riskScore == r.maxRiskScore
    ensures r.messageCount > 0 ==> r.avgRiskScore == Mean(MetricValues(Windowed(ms, windowDays, now), RiskScoreMetric))
    ensures r.messageCount > 0 ==> r.avgIsolation == Mean(MetricValues(Windowed(ms, windowDays, now), IsolationMetric))
    ensures r.avgRiskScore <= r.maxRiskScore
  {
    if ms == [] then ZeroMetrics
    else
      var windowed := Windowed(ms, windowDays, now);
      if windowed == [] then ZeroMetrics
      else
        WindowMetrics(
          MeanMetric(windowed, RiskScoreMetric), MaxMetric(windowed, RiskScoreMetric),
          MeanMetric(windowed, IsolationMetric),
          |Filter(windowed, IsHighRiskMessage)|, |Filter(windowed, IsToxicMessage)|, |windowed|)
  }

  /** A longer window never holds fewer messages (the 30-day window contains the 7-day one). */
  lemma WiderWindowCountsMore(ms: seq<MessagePrediction>, shortDays: int, longDays: int, now: Timestamp)
    requires shortDays <= longDays
    ensures ComputeWindowMetrics(ms, shortDays, now).messageCount <= ComputeWindowMetrics(ms, longDays, now).messageCount
    ensures ComputeWindowMetrics(ms, shortDays, now).highRiskCount <= ComputeWindowMetrics(ms, longDays, now).highRiskCount
  {
    WindowedGrows(ms, shortDays, longDays, now);
  }

  lemma WindowedGrows(ms: seq<MessagePrediction>, shortDays: int, longDays: int, now: Timestamp)
    requires shortDays <= longDays
    ensures |Windowed(ms, shortDays, now)| <= |Windowed(ms, longDays, now)|
    ensures |Filter(Windowed(ms, shortDays, now), IsHighRiskMessage)| <= |Filter(Windowed(ms, longDays, now), IsHighRiskMessage)|
  {
    var short := OnOrAfter(WindowStart(shortDays, now));
    var long := OnOrAfter(WindowStart(longDays, now));
    FilterMonotone(ms, short, long);
    FilterOfFilter(ms, short, IsHighRiskMessage);
    FilterOfFilter(ms, long, IsHighRiskMessage);
    FilterMonotone(ms, Both(short, IsHighRiskMessage), Both(long, IsHighRiskMessage));
  }

  /** Probabilities in [0, 1] give averages and maxima in [0, 1]. */
  lemma WindowMetricsInUnitInterval(ms: seq<MessagePrediction>, windowDays: int, now: Timestamp)
    requires forall m :: m in ms ==> 0.0 <= m.riskScore <= 1.0 && 0.0 <= m.pIsolation <= 1.0
    ensures var r := ComputeWindowMetrics(ms, windowDays, now);
      0.0 <= r.avgRiskScore <= r.maxRiskScore <= 1.0 && 0.0 <= r.avgIsolation <= 1.0
  {
    var w := Windowed(ms, windowDays, now);
    if ms != [] && w != [] {
      MeanMetricBounds(w, RiskScoreMetric, 0.0, 1.0);
      MeanMetricBounds(w, IsolationMetric, 0.0, 1.0);
    }
  }

  // ---------------------------------------------------------------------------
  // detect_trend

  /** `(now - m['timestamp']).days <= n`; a future timestamp counts as recent. */
  function WithinDays(now: Timestamp, n: int): MessagePrediction -> bool {
    (m: MessagePrediction) => DaysBetween(now, m.timestamp) <= n
  }

  /** `7 < (now - m['timestamp']).days <= 14`. */
  function InPreviousWeek(now: Timestamp): MessagePrediction -> bool {
    (m: MessagePrediction) => 7 < DaysBetween(now, m.timestamp) <= 14
  }

  /** Enough data for a trend: five messages and both weekly buckets non-empty. */
  predicate EnoughHistory(ms: seq<MessagePrediction>, now: Timestamp) {
    |ms| >= 5 && Filter(ms, WithinDays(now, 7)) != [] && Filter(ms, InPreviousWeek(now)) != []
  }

  /** Some message of the last two days has the metric at 0.8 or more. */
  predicate HasSpike(ms: seq<MessagePrediction>, metric: Metric, now: Timestamp) {
    exists m :: m in ms && DaysBetween(now, m.timestamp) <= 2 && MetricValue(m, metric) >= 0.8
  }

  /** Recent-week average minus previous-week average. */
  function TrendDelta(ms: seq<MessagePrediction>, metric: Metric, now: Timestamp): real
    requires EnoughHistory(ms, now)
  {
    MeanMetric(Filter(ms, WithinDays(now, 7)), metric) - MeanMetric(Filter(ms, InPreviousWeek(now)), metric)
  }

  /** `detect_trend(messages, metric)`. */
  function DetectTrend(ms: seq<MessagePrediction>, metric: Metric, now: Timestamp): (t: RiskTrend)
    ensures !EnoughHistory(ms, now) ==> t == Stable
    ensures t == RapidDecline <==> EnoughHistory(ms, now) && HasSpike(ms, metric, now)
    ensures t == Improving <==>
      EnoughHistory(ms, now) && !HasSpike(ms, metric, now) && TrendDelta(ms, metric, now) < -0.15
    ensures t == Declining <==>
      EnoughHistory(ms, now) && !HasSpike(ms, metric, now) && TrendDelta(ms, metric, now) > 0.15
  {
    if |ms| < 5 then Stable
    else
      var recent := Filter(ms, WithinDays(now, 7));
      var previous := Filter(ms, InPreviousWeek(now));
      if recent == [] || previous == [] then Stable
      else
        var delta := MeanMetric(recent, metric) - MeanMetric(previous, metric);
        var last2d := Filter(ms, WithinDays(now, 2));
        if last2d != [] && MaxMetric(last2d, metric) >= 0.8 then
          assert HasSpike(ms, metric, now);
          RapidDecline
        else
          assert !HasSpike(ms, metric, now) by {
            forall m | m in ms && DaysBetween(now, m.timestamp) <= 2
              ensures MetricValue(m, metric) < 0.8
            {
              assert WithinDays(now, 2)(m);
              assert m in last2d;
            }
          }
          if delta < -0.15 then Improving
          else if delta > 0.15 then Declining
          else Stable
  }

  // ---------------------------------------------------------------------------
  // compute_engagement_metrics

  /** `compute_engagement_metrics`' result record. */
  datatype Engagement = Engagement(
    totalMessages7d: nat, buddyMessages7d: nat, counselorMessages7d: nat,
    lastMessageTime: Option<Timestamp>, daysSinceLastBuddyMsg: int)

  /** Stored when no buddy message exists in the last seven days. */
  const NoBuddySentinel: int := 999

  function IsType(conversationType: string): MessagePrediction -> bool {
    (m: MessagePrediction) => m.conversationType == conversationType
  }

  /** `max(m['timestamp'] for m in ms)`. */
  function Latest(ms: seq<MessagePrediction>): (t: Timestamp)
    requires |ms| > 0
    ensures forall m :: m in ms ==> m.timestamp <= t
    ensures exists m :: m in ms && m.timestamp == t
  {
    if |ms| == 1 then ms[0].timestamp
    else
      var rest := Latest(ms[1..]);
      assert forall m :: m in ms ==> m == ms[0] || m in ms[1..];
      if ms[0].timestamp >= rest then ms[0].timestamp else rest
  }

  /** `(now - max(m['timestamp'] for m in ms)).days`: days since the most recent message. */
  function DaysSinceLatest(ms: seq<MessagePrediction>, now: Timestamp): (d: int)
    requires |ms| > 0
    ensures forall m :: m in ms ==> d <= DaysBetween(now, m.timestamp)
    ensures exists m :: m in ms && d == DaysBetween(now, m.timestamp)
  {
    var latest := Latest(ms);
    forall m | m in ms
      ensures DaysBetween(now, latest) <= DaysBetween(now, m.timestamp)
    {
      DaysBetweenMonotone(now, m.timestamp, latest);
    }
    DaysBetween(now, latest)
  }

  /** `days_since_last_buddy_msg`: days since the latest buddy message of the week, or 999 without one. */
  function DaysSinceBuddy(messages7d: seq<MessagePrediction>, now: Timestamp): (d: int)
    requires forall m :: m in messages7d ==> DaysBetween(now, m.timestamp) <= 7
    ensures Filter(messages7d, IsType(Buddy)) != [] ==> d <= 7
    ensures Filter(messages7d, IsType(Buddy)) == [] <==> d == NoBuddySentinel
    ensures forall m :: m in messages7d && m.conversationType == Buddy ==> d <= DaysBetween(now, m.timestamp)
    ensures Filter(messages7d, IsType(Buddy)) != [] ==>
      exists m :: m in messages7d && m.conversationType == Buddy && d == DaysBetween(now, m.timestamp)
  {
    var buddy := Filter(messages7d, IsType(Buddy));
    if buddy != [] then
      var d := DaysSinceLatest(buddy, now);
      assert forall m :: m in messages7d && m.conversationType == Buddy ==> m in buddy;
      d
    else NoBuddySentinel
  }

  /** `compute_engagement_metrics(user_id, messages)`. */
  function ComputeEngagementMetrics(ms: seq<MessagePrediction>, now: Timestamp): (e: Engagement)
    ensures e.totalMessages7d == |Filter(ms, WithinDays(now, 7))|
    ensures e.buddyMessages7d == |Filter(Filter(ms, WithinDays(now, 7)), IsType(Buddy))|
    ensures e.counselorMessages7d == |Filter(Filter(ms, WithinDays(now, 7)), IsType(Counselor))|
    ensures e.buddyMessages7d + e.counselorMessages7d <= e.totalMessages7d
    ensures e.buddyMessages7d == 0 <==> e.daysSinceLastBuddyMsg == NoBuddySentinel
    ensures e.buddyMessages7d > 0 ==> e.daysSinceLastBuddyMsg <= 7
    ensures forall m :: m in ms && DaysBetween(now, m.timestamp) <= 7 && m.conversationType == Buddy ==>
      e.daysSinceLastBuddyMsg <= DaysBetween(now, m.timestamp)
    ensures e.buddyMessages7d > 0 ==>
      exists m :: m in ms && DaysBetween(now, m.timestamp) <= 7 && m.conversationType == Buddy &&
        e.daysSinceLastBuddyMsg == DaysBetween(now, m.timestamp)
    ensures e.lastMessageTime.None? <==> ms == []
    ensures e.lastMessageTime.Some? ==>
      (forall m :: m in ms ==> m.timestamp <= e.lastMessageTime.value) &&
      (exists m :: m in ms && m.timestamp == e.lastMessageTime.value)
  {
    var messages7d := Filter(ms, WithinDays(now, 7));
    assert forall m :: m in messages7d <==> m in ms && DaysBetween(now, m.timestamp) <= 7;
    var buddy := Filter(messages7d, IsType(Buddy));
    var counselor := Filter(messages7d, IsType(Counselor));
    FilterDisjoint(messages7d, IsType(Buddy), IsType(Counselor));
    Engagement(|messages7d|, |buddy|, |counselor|,
               if ms != [] then Some(Latest(ms)) else None, DaysSinceBuddy(messages7d, now))
  }

  // ---------------------------------------------------------------------------
  // apply_final_risk_decision

  /** The justification attached to a user-level label (the f-string text is not modelled). */
  datatype Reason =
    | MaxRiskInShortWindow(score: real)
    | MultipleHighRiskMessages(count: nat)
    | RapidDeclineDetected
    | IsolationEscalatingBaseRisk
    | AverageRiskElevated(avgScore: real)
    | TrendDeclining
    | SocialWithdrawal
    | IsolationWithoutAddictionRisk
    | NoSignificantRisk
    | NoMessageHistory

  datatype Decision = Decision(riskLabel: RiskLabel, reasons: seq<Reason>)

  /** `thresholds.get(key, default)`. */
  function Threshold(thresholds: map<string, real>, key: string, default: real): (t: real)
    ensures key in thresholds ==> t == thresholds[key]
    ensures key !in thresholds ==> t == default
  {
    if key in thresholds then thresholds[key] else default
  }

  function THigh(th: map<string, real>): real { Threshold(th, "T_high", 0.7) }
  function TIsoEscalate(th: map<string, real>): real { Threshold(th, "T_iso_escalate", 0.7) }
  function TIso(th: map<string, real>): real { Threshold(th, "T_iso", 0.9) }
  function TMid(th: map<string, real>): real { Threshold(th, "T_mid", 0.3) }

  /** Any of the four HIGH_RISK rules of `apply_final_risk_decision`. */
  predicate HighRuleFires(short: WindowMetrics, riskTrend: RiskTrend, th: map<string, real>) {
    short.maxRiskScore >= THigh(th) || short.highRiskCount >= 3 || riskTrend == RapidDecline ||
    (short.avgRiskScore >= TIsoEscalate(th) && short.avgIsolation >= TIso(th))
  }

  /** Any of the three MODERATE_RISK rules of `apply_final_risk_decision`. */
  predicate ModerateRuleFires(short: WindowMetrics, engagement: Engagement, riskTrend: RiskTrend, th: map<string, real>) {
    short.avgRiskScore >= TMid(th) || riskTrend == Declining ||
    (engagement.daysSinceLastBuddyMsg > 5 && short.avgRiskScore > 0.2)
  }

  /** The ISOLATION_ONLY rule of `apply_final_risk_decision`: note the fixed 0.3, not T_mid. */
  predicate IsolationRuleFires(short: WindowMetrics, th: map<string, real>) {
    short.avgIsolation >= TIso(th) && short.avgRiskScore < 0.3
  }

  /** `apply_final_risk_decision`: nine rules tried in order, the first match wins. */
  function ApplyFinalRiskDecision(short: WindowMetrics, medium: WindowMetrics, engagement: Engagement,
                                  riskTrend: RiskTrend, isolationTrend: RiskTrend,
                                  thresholds: map<string, real>): (d: Decision)
    ensures |d.reasons| == 1
    ensures d.riskLabel == HighRisk <==> HighRuleFires(short, riskTrend, thresholds)
    ensures d.riskLabel == ModerateRisk <==>
      !HighRuleFires(short, riskTrend, thresholds) && ModerateRuleFires(short, engagement, riskTrend, thresholds)
    ensures d.riskLabel == IsolationOnly <==>
      !HighRuleFires(short, riskTrend, thresholds) && !ModerateRuleFires(short, engagement, riskTrend, thresholds) &&
      IsolationRuleFires(short, thresholds)
  {
    if short.maxRiskScore >= THigh(thresholds) then
      Decision(HighRisk, [MaxRiskInShortWindow(short.maxRiskScore)])
    else if short.highRiskCount >= 3 then
      Decision(HighRisk, [MultipleHighRiskMessages(short.highRiskCount)])
    else if riskTrend == RapidDecline then
      Decision(HighRisk, [RapidDeclineDetected])
    else if short.avgRiskScore >= TIsoEscalate(thresholds) && short.avgIsolation >= TIso(thresholds) then
      Decision(HighRisk, [IsolationEscalatingBaseRisk])
    else if short.avgRiskScore >= TMid(thresholds) then
      Decision(ModerateRisk, [AverageRiskElevated(short.avgRiskScore)])
    else if riskTrend == Declining then
      Decision(ModerateRisk, [TrendDeclining])
    else if engagement.daysSinceLastBuddyMsg > 5 && short.avgRiskScore > 0.2 then
      Decision(ModerateRisk, [SocialWithdrawal])
    else if short.avgIsolation >= TIso(thresholds) && short.avgRiskScore < 0.3 then
      Decision(IsolationOnly, [IsolationWithoutAddictionRisk])
    else
      Decision(LowRisk, [NoSignificantRisk])
  }

  /** The same ladder written as an ordered rule table. */
  function FinalRules(short: WindowMetrics, engagement: Engagement, riskTrend: RiskTrend,
                      th: map<string, real>): seq<Rule<Decision>>
  {
    [ Rule(short.maxRiskScore >= THigh(th), Decision(HighRisk, [MaxRiskInShortWindow(short.maxRiskScore)])),
      Rule(short.highRiskCount >= 3, Decision(HighRisk, [MultipleHighRiskMessages(short.highRiskCount)])),
      Rule(riskTrend == RapidDecline, Decision(HighRisk, [RapidDeclineDetected])),
      Rule(short.avgRiskScore >= TIsoEscalate(th) && short.avgIsolation >= TIso(th),
           Decision(HighRisk, [IsolationEscalatingBaseRisk])),
      Rule(short.avgRiskScore >= TMid(th), Decision(ModerateRisk, [AverageRiskElevated(short.avgRiskScore)])),
      Rule(riskTrend == Declining, Decision(ModerateRisk, [TrendDeclining])),
      Rule(engagement.daysSinceLastBuddyMsg > 5 && short.avgRiskScore > 0.2, Decision(ModerateRisk, [SocialWithdrawal])),
      Rule(short.avgIsolation >= TIso(th) && short.avgRiskScore < 0.3,
           Decision(IsolationOnly, [IsolationWithoutAddictionRisk])) ]
  }

  /** `apply_final_risk_decision` is the first-match evaluation of its rule table. */
  lemma FinalDecisionIsFirstMatch(short: WindowMetrics, medium: WindowMetrics, engagement: Engagement,
                                  riskTrend: RiskTrend, isolationTrend: RiskTrend, th: map<string, real>)
    ensures ApplyFinalRiskDecision(short, medium, engagement, riskTrend, isolationTrend, th) ==
      FirstMatch(FinalRules(short, engagement, riskTrend, th), Decision(LowRisk, [NoSignificantRisk]))
  {
    var rules := FinalRules(short, engagement, riskTrend, th);
    var k := FirstFiring(rules);
    if k == |rules| {
      assert forall j :: 0 <= j < |rules| ==> !rules[j].fires;
      assert !rules[0].fires && !rules[1].fires && !rules[2].fires && !rules[3].fires;
      assert !rules[4].fires && !rules[5].fires && !rules[6].fires && !rules[7].fires;
    } else {
      assert k < 8 && rules[k].fires;
      assert k > 0 ==> !rules[0].fires;
      assert k > 1 ==> !rules[1].fires;
      assert k > 2 ==> !rules[2].fires;
      assert k > 3 ==> !rules[3].fires;
      assert k > 4 ==> !rules[4].fires;
      assert k > 5 ==> !rules[5].fires;
      assert k > 6 ==> !rules[6].fires;
    }
  }

  /** The label never depends on the medium window or on the isolation trend. */
  lemma DecisionIgnoresMediumWindowAndIsolationTrend(
    short: WindowMetrics, medium: WindowMetrics, medium': WindowMetrics, engagement: Engagement,
    riskTrend: RiskTrend, isolationTrend: RiskTrend, isolationTrend': RiskTrend, th: map<string, real>)
    ensures ApplyFinalRiskDecision(short, medium, engagement, riskTrend, isolationTrend, th) ==
            ApplyFinalRiskDecision(short, medium', engagement, riskTrend, isolationTrend', th)
  {
  }

  /** Trends from best to worst; `improving` and `stable` play the same part in the ladder. */
  function TrendRank(t: RiskTrend): (rank: nat)
    ensures rank <= 2
    ensures rank == 0 <==> t == Improving || t == Stable
  {
    match t
    case Improving => 0
    case Stable => 0
    case Declining => 1
    case RapidDecline => 2
  }

  /** A worse trend never yields a less severe label. */
  lemma WorseTrendNeverLowersLabel(short: WindowMetrics, medium: WindowMetrics, engagement: Engagement,
                                   riskTrend: RiskTrend, riskTrend': RiskTrend, isolationTrend: RiskTrend,
                                   th: map<string, real>)
    requires TrendRank(riskTrend) <= TrendRank(riskTrend')
    ensures AtLeastAsSevere(ApplyFinalRiskDecision(short, medium, engagement, riskTrend', isolationTrend, th).riskLabel,
                            ApplyFinalRiskDecision(short, medium, engagement, riskTrend, isolationTrend, th).riskLabel)
  {
  }

  /** A higher short-window maximum never yields a less severe label. */
  lemma HigherMaxNeverLowersLabel(short: WindowMetrics, maxRiskScore': real, medium: WindowMetrics,
                                  engagement: Engagement, riskTrend: RiskTrend, isolationTrend: RiskTrend,
                                  th: map<string, real>)
    requires short.maxRiskScore <= maxRiskScore'
    ensures AtLeastAsSevere(
      ApplyFinalRiskDecision(short.(maxRiskScore := maxRiskScore'), medium, engagement, riskTrend, isolationTrend, th).riskLabel,
      ApplyFinalRiskDecision(short, medium, engagement, riskTrend, isolationTrend, th).riskLabel)
  {
  }

  /**
   * A higher short-window average never yields a less severe label, provided T_mid
   * is at most the 0.3 that the ISOLATION_ONLY rule hard-codes (the default T_mid).
   */
  lemma HigherAverageNeverLowersLabel(short: WindowMetrics, avgRiskScore': real, medium: WindowMetrics,
                                      engagement: Engagement, riskTrend: RiskTrend, isolationTrend: RiskTrend,
                                      th: map<string, real>)
    requires short.avgRiskScore <= avgRiskScore'
    requires TMid(th) <= 0.3
    ensures AtLeastAsSevere(
      ApplyFinalRiskDecision(short.(avgRiskScore := avgRiskScore'), medium, engagement, riskTrend, isolationTrend, th).riskLabel,
      ApplyFinalRiskDecision(short, medium, engagement, riskTrend, isolationTrend, th).riskLabel)
  {
  }

  /**
   * With T_mid above 0.3 the ladder has a gap: an isolated user whose average risk
   * rises from 0.25 to 0.35 (still under T_mid = 0.5) drops from ISOLATION_ONLY to
   * LOW_RISK.
   */
  lemma IsolationOnlyGapAboveDefaultMid()
    ensures var th := map["T_mid" := 0.5];
      var short := WindowMetrics(0.25, 0.4, 0.95, 0, 0, 6);
      var engagement := Engagement(6, 6, 0, Some(0), 0);
      ApplyFinalRiskDecision(short, short, engagement, Stable, Stable, th).riskLabel == IsolationOnly &&
      ApplyFinalRiskDecision(short.(avgRiskScore := 0.35), short, engagement, Stable, Stable, th).riskLabel == LowRisk
  {
    var th := map["T_mid" := 0.5];
    assert TMid(th) == 0.5 && THigh(th) == 0.7 && TIso(th) == 0.9 && TIsoEscalate(th) == 0.7;
  }
}

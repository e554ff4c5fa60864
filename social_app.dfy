/**
 * Message-level scoring and fusion of the demo service (services/social_service/app.py):
 * the risk score formula, the `apply_fusion_v2` ladder, the toxicity flag, and the
 * rolling conversation window kept in the session state. The two classifiers are a
 * function parameter; the page layout and widgets are not modelled.
 */
module SocialApp {
  import opened Wrappers
  import opened Constants
  import opened Reductions
  import opened RuleLadder

  /** ROLLING_WINDOW_SIZE: how many submitted messages the session keeps. */
  const RollingWindowSize: nat := 5

  /** `compute_risk_score`: `max(p_relapse, p_craving, neg_weight * p_negative_mood)`. */
  function ComputeRiskScore(pRelapse: real, pCraving: real, pNegativeMood: real, negWeight: real): (score: real)
    ensures pRelapse <= score && pCraving <= score && negWeight * pNegativeMood <= score
    ensures score == pRelapse || score == pCraving || score == negWeight * pNegativeMood
  {
    Max3(pRelapse, pCraving, negWeight * pNegativeMood)
  }

  // ---------------------------------------------------------------------------
  // apply_fusion_v2

  /** The threshold keys `apply_fusion_v2` reads, in the order it reads them. */
  const FusionKeys: seq<string> := ["T_relapse", "T_craving", "T_high", "T_mid", "T_iso", "T_iso_escalate"]

  datatype FusionThresholds = FusionThresholds(
    tRelapse: real, tCraving: real, tHigh: real, tMid: real, tIso: real, tIsoEscalate: real)

  /** Index of the first key that the dictionary lacks, or |keys| when it has them all. */
  function FirstMissing(keys: seq<string>, t: map<string, real>): (i: nat)
    ensures i <= |keys|
    ensures forall j :: 0 <= j < i ==> keys[j] in t
    ensures i < |keys| ==> keys[i] !in t
  {
    if keys == [] then 0
    else if keys[0] !in t then 0
    else 1 + FirstMissing(keys[1..], t)
  }

  /**
   * The six `thresholds["…"]` reads at the top of `apply_fusion_v2`: a missing key
   * raises `KeyError` for the first key missing in reading order.
   */
  function ReadFusionThresholds(t: map<string, real>): (r: Result<FusionThresholds, string>)
    ensures r.Success? <==> forall k :: k in FusionKeys ==> k in t
    ensures r.Failure? ==>
      r.error !in t &&
      exists i :: 0 <= i < |FusionKeys| && FusionKeys[i] == r.error && forall j :: 0 <= j < i ==> FusionKeys[j] in t
    ensures r.Success? ==>
      r.value == FusionThresholds(t["T_relapse"], t["T_craving"], t["T_high"], t["T_mid"], t["T_iso"], t["T_iso_escalate"])
  {
    var i := FirstMissing(FusionKeys, t);
    if i < |FusionKeys| then Failure(FusionKeys[i])
    else
      assert FusionKeys[0] in t && FusionKeys[1] in t && FusionKeys[2] in t;
      assert FusionKeys[3] in t && FusionKeys[4] in t && FusionKeys[5] in t;
      Success(FusionThresholds(t["T_relapse"], t["T_craving"], t["T_high"], t["T_mid"], t["T_iso"], t["T_iso_escalate"]))
  }

  /** The justifications `apply_fusion_v2` can give, one per rule. */
  datatype FusionReason =
    | AcuteRiskTrigger
    | IsolationEscalatedRisk
    | ModerateVulnerability
    | HighIsolationWithoutRisk
    | NoThresholdsTriggered
  {
    /** The text the page shows for the reason. */
    function Text(): string {
      match this
      case AcuteRiskTrigger => "Acute addiction-risk trigger (relapse/craving/high risk_score)"
      case IsolationEscalatedRisk => "Isolation escalated risk because risk_score was already high-ish"
      case ModerateVulnerability => "Moderate vulnerability detected (risk_score >= T_mid)"
      case HighIsolationWithoutRisk => "High isolation without high addiction-risk"
      case NoThresholdsTriggered => "No thresholds triggered"
    }
  }

  /** The label and the one-line justification of a fusion decision. */
  datatype Fusion = Fusion(riskLabel: RiskLabel, reasons: seq<FusionReason>)

  /** Rule 1: relapse, craving or the fused score alone is over its threshold. */
  predicate AcuteTrigger(riskScore: real, pRelapse: real, pCraving: real, th: FusionThresholds) {
    pRelapse >= th.tRelapse || pCraving >= th.tCraving || riskScore >= th.tHigh
  }

  /** Rule 2: isolation on top of an already elevated score. */
  predicate IsolationEscalates(riskScore: real, pIsolation: real, th: FusionThresholds) {
    riskScore >= th.tIsoEscalate && pIsolation >= th.tIso
  }

  /** The decision ladder of `apply_fusion_v2` once the thresholds are read. */
  function Fuse(riskScore: real, pRelapse: real, pCraving: real, pIsolation: real, th: FusionThresholds): (f: Fusion)
    ensures |f.reasons| == 1
    ensures f.riskLabel == HighRisk <==>
      AcuteTrigger(riskScore, pRelapse, pCraving, th) || IsolationEscalates(riskScore, pIsolation, th)
    ensures f.riskLabel == ModerateRisk <==>
      !AcuteTrigger(riskScore, pRelapse, pCraving, th) && !IsolationEscalates(riskScore, pIsolation, th) &&
      riskScore >= th.tMid
    ensures f.riskLabel == IsolationOnly <==>
      !AcuteTrigger(riskScore, pRelapse, pCraving, th) && !IsolationEscalates(riskScore, pIsolation, th) &&
      riskScore < th.tMid && pIsolation >= th.tIso
    ensures f.riskLabel == LowRisk <==>
      !AcuteTrigger(riskScore, pRelapse, pCraving, th) && !IsolationEscalates(riskScore, pIsolation, th) &&
      riskScore < th.tMid && pIsolation < th.tIso
  {
    if AcuteTrigger(riskScore, pRelapse, pCraving, th) then
      Fusion(HighRisk, [AcuteRiskTrigger])
    else if IsolationEscalates(riskScore, pIsolation, th) then
      Fusion(HighRisk, [IsolationEscalatedRisk])
    else if riskScore >= th.tMid then
      Fusion(ModerateRisk, [ModerateVulnerability])
    else if pIsolation >= th.tIso then
      Fusion(IsolationOnly, [HighIsolationWithoutRisk])
    else
      Fusion(LowRisk, [NoThresholdsTriggered])
  }

  /** `apply_fusion_v2`: read the six thresholds (or fail), then run the ladder. */
  function ApplyFusionV2(riskScore: real, pRelapse: real, pCraving: real, pIsolation: real,
                         thresholds: map<string, real>): (r: Result<Fusion, string>)
    ensures r.Failure? <==> exists k :: k in FusionKeys && k !in thresholds
    ensures r.Failure? ==> r.error in FusionKeys && r.error !in thresholds
    ensures r.Failure? ==>
      exists i :: 0 <= i < |FusionKeys| && FusionKeys[i] == r.error && forall j :: 0 <= j < i ==> FusionKeys[j] in thresholds
    ensures r.Success? ==>
      r.value == Fuse(riskScore, pRelapse, pCraving, pIsolation, ReadFusionThresholds(thresholds).value)
  {
    match ReadFusionThresholds(thresholds)
    case Failure(key) => Failure(key)
    case Success(th) => Success(Fuse(riskScore, pRelapse, pCraving, pIsolation, th))
  }

  /** The same ladder written as an ordered rule table. */
  function FusionRules(riskScore: real, pRelapse: real, pCraving: real, pIsolation: real,
                       th: FusionThresholds): seq<Rule<Fusion>>
  {
    [ Rule(AcuteTrigger(riskScore, pRelapse, pCraving, th),
           Fusion(HighRisk, [AcuteRiskTrigger])),
      Rule(IsolationEscalates(riskScore, pIsolation, th),
           Fusion(HighRisk, [IsolationEscalatedRisk])),
      Rule(riskScore >= th.tMid,
           Fusion(ModerateRisk, [ModerateVulnerability])),
      Rule(pIsolation >= th.tIso,
           Fusion(IsolationOnly, [HighIsolationWithoutRisk])) ]
  }

  /** `apply_fusion_v2` is the first-match evaluation of its rule table. */
  lemma FuseIsFirstMatch(riskScore: real, pRelapse: real, pCraving: real, pIsolation: real, th: FusionThresholds)
    ensures Fuse(riskScore, pRelapse, pCraving, pIsolation, th) ==
      FirstMatch(FusionRules(riskScore, pRelapse, pCraving, pIsolation, th), Fusion(LowRisk, [NoThresholdsTriggered]))
  {
    var rules := FusionRules(riskScore, pRelapse, pCraving, pIsolation, th);
    var k := FirstFiring(rules);
    if !rules[0].fires && !rules[1].fires && !rules[2].fires && !rules[3].fires {
      assert k == 4;
    } else {
      assert k < 4;
    }
  }

  /** Raising any of the four inputs never produces a less severe label. */
  lemma FuseMonotone(riskScore: real, pRelapse: real, pCraving: real, pIsolation: real,
                     riskScore': real, pRelapse': real, pCraving': real, pIsolation': real,
                     th: FusionThresholds)
    requires riskScore <= riskScore' && pRelapse <= pRelapse' && pCraving <= pCraving' && pIsolation <= pIsolation'
    ensures AtLeastAsSevere(Fuse(riskScore', pRelapse', pCraving', pIsolation', th).riskLabel,
                            Fuse(riskScore, pRelapse, pCraving, pIsolation, th).riskLabel)
  {
  }

  /** `toxic_flag`: 1 exactly when the toxicity probability reaches its threshold. */
  function ToxicFlag(pToxic: real, tToxic: real): (flag: int)
    ensures flag == 0 || flag == 1
    ensures flag == 1 <==> pToxic >= tToxic
  {
    if pToxic >= tToxic then 1 else 0
  }

  // ---------------------------------------------------------------------------
  // The rolling conversation window

  /** Characters that Python's `str.strip()` removes (those for which `isspace()` holds). */
  predicate IsSpace(c: char) {
    var n := c as int;
    n == 0x20 || 0x09 <= n <= 0x0d || 0x1c <= n <= 0x1f || n == 0x85 || n == 0xa0 || n == 0x1680 ||
    0x2000 <= n <= 0x200a || n == 0x2028 || n == 0x2029 || n == 0x202f || n == 0x205f || n == 0x3000
  }

  /** The number of whitespace characters at the front of s. */
  function LeadingSpaces(s: string): (n: nat)
    ensures n <= |s|
    ensures forall k :: 0 <= k < n ==> IsSpace(s[k])
    ensures n < |s| ==> !IsSpace(s[n])
  {
    if s == [] || !IsSpace(s[0]) then 0 else 1 + LeadingSpaces(s[1..])
  }

  /** The number of whitespace characters at the back of s. */
  function TrailingSpaces(s: string): (n: nat)
    ensures n <= |s|
    ensures forall k :: |s| - n <= k < |s| ==> IsSpace(s[k])
    ensures n < |s| ==> !IsSpace(s[|s| - n - 1])
  {
    if s == [] || !IsSpace(s[|s| - 1]) then 0 else 1 + TrailingSpaces(s[..|s| - 1])
  }

  /**
   * `text.strip()`: the slice of the text between its leading and its trailing
   * whitespace.
   */
  function Strip(s: string): (r: string)
    ensures LeadingSpaces(s) + |r| <= |s| && r == s[LeadingSpaces(s)..LeadingSpaces(s) + |r|]
    ensures forall k :: LeadingSpaces(s) + |r| <= k < |s| ==> IsSpace(s[k])
    ensures r != [] ==> !IsSpace(r[0]) && !IsSpace(r[|r| - 1])
    ensures r == [] <==> forall k :: 0 <= k < |s| ==> IsSpace(s[k])
  {
    var a := LeadingSpaces(s);
    var rest := s[a..];
    var r := rest[..|rest| - TrailingSpaces(rest)];
    StripTail(s, a, rest, r);
    StripEmpty(s, a, rest, r);
    r
  }

  /** What follows the stripped text is whitespace. */
  lemma StripTail(s: string, a: nat, rest: string, r: string)
    requires a == LeadingSpaces(s) && rest == s[a..] && r == rest[..|rest| - TrailingSpaces(rest)]
    ensures a + |r| <= |s| && r == s[a..a + |r|]
    ensures forall k :: a + |r| <= k < |s| ==> IsSpace(s[k])
  {
    forall k | a + |r| <= k < |s|
      ensures IsSpace(s[k])
    {
      assert s[k] == rest[k - a];
    }
  }

  /** The stripped text is empty exactly when the whole text is whitespace. */
  lemma StripEmpty(s: string, a: nat, rest: string, r: string)
    requires a == LeadingSpaces(s) && rest == s[a..] && r == rest[..|rest| - TrailingSpaces(rest)]
    ensures r != [] ==> !IsSpace(r[0]) && !IsSpace(r[|r| - 1])
    ensures r == [] <==> forall k :: 0 <= k < |s| ==> IsSpace(s[k])
  {
    if r != [] {
      assert r[0] == s[a];
      assert r[|r| - 1] == rest[|rest| - TrailingSpaces(rest) - 1];
    } else {
      forall k | 0 <= k < |s|
        ensures IsSpace(s[k])
      {
        if k >= a {
          assert s[k] == rest[k - a];
        }
      }
    }
  }

  /**
   * The "Analyze" block's history update: append the new message and keep only the last
   * ROLLING_WINDOW_SIZE entries, in order.
   */
  function Rolled(history: seq<string>, text: string): (r: seq<string>)
    ensures |r| == if |history| + 1 > RollingWindowSize then RollingWindowSize else |history| + 1
    ensures r == (history + [text])[|history| + 1 - |r|..]
    ensures r[|r| - 1] == text
  {
    var appended := history + [text];
    if |appended| > RollingWindowSize then appended[|appended| - RollingWindowSize..] else appended
  }

  /** The last (at most) n elements of s. */
  function LastN<T>(s: seq<T>, n: nat): seq<T> {
    if |s| <= n then s else s[|s| - n..]
  }

  /** The window after a series of submissions into an empty session. */
  function RollAll(texts: seq<string>): seq<string> {
    if texts == [] then [] else Rolled(RollAll(texts[..|texts| - 1]), texts[|texts| - 1])
  }

  /** The session always holds exactly the last five submitted messages, oldest first. */
  lemma {:induction false} RollAllKeepsLastFive(texts: seq<string>)
    ensures RollAll(texts) == LastN(texts, RollingWindowSize)
  {
    if texts != [] {
      var init := texts[..|texts| - 1];
      RollAllKeepsLastFive(init);
      assert init + [texts[|texts| - 1]] == texts;
    }
  }

  // ---------------------------------------------------------------------------
  // Scoring the window

  /** What the two classifiers report for one message. */
  datatype ModelOutput = ModelOutput(riskProbs: map<string, real>, pIsolation: real)

  /** One entry of `per_msg_outputs`. */
  datatype MessageScores = MessageScores(
    text: string, riskScore: real, pIsolation: real, pRelapse: real, pCraving: real,
    pNegativeMood: real, pNeutral: real, pToxic: real)

  /** The "Analyze" block's per-message scoring step for one message. */
  function ScoreMessage(text: string, out: ModelOutput, negWeight: real): (m: MessageScores)
    ensures m.text == text && m.pIsolation == out.pIsolation
    ensures m.pRelapse == ClassProbability(out.riskProbs, Relapse)
    ensures m.pCraving == ClassProbability(out.riskProbs, Craving)
    ensures m.pNegativeMood == ClassProbability(out.riskProbs, NegativeMood)
    ensures m.pNeutral == ClassProbability(out.riskProbs, Neutral)
    ensures m.pToxic == ClassProbability(out.riskProbs, Toxic)
    ensures m.riskScore == ComputeRiskScore(m.pRelapse, m.pCraving, m.pNegativeMood, negWeight)
    ensures m.pRelapse <= m.riskScore && m.pCraving <= m.riskScore && negWeight * m.pNegativeMood <= m.riskScore
  {
    var pRelapse := ClassProbability(out.riskProbs, Relapse);
    var pCraving := ClassProbability(out.riskProbs, Craving);
    var pNeg := ClassProbability(out.riskProbs, NegativeMood);
    MessageScores(text, ComputeRiskScore(pRelapse, pCraving, pNeg, negWeight), out.pIsolation,
                  pRelapse, pCraving, pNeg, ClassProbability(out.riskProbs, Neutral),
                  ClassProbability(out.riskProbs, Toxic))
  }

  /** The scores of every message of the window, in window order. */
  function WindowScores(history: seq<string>, predict: string -> ModelOutput, negWeight: real): seq<MessageScores> {
    seq(|history|, i requires 0 <= i < |history| => ScoreMessage(history[i], predict(history[i]), negWeight))
  }

  /** The "Analyze" block's loop that builds `per_msg_outputs`. */
  method ScoreHistory(history: seq<string>, predict: string -> ModelOutput, negWeight: real)
    returns (outs: seq<MessageScores>)
    ensures outs == WindowScores(history, predict, negWeight)
  {
    outs := [];
    var i := 0;
    while i < |history|
      invariant 0 <= i <= |history|
      invariant |outs| == i
      invariant forall k :: 0 <= k < i ==> outs[k] == ScoreMessage(history[k], predict(history[k]), negWeight)
    {
      var out := predict(history[i]);
      var pRelapse := ClassProbability(out.riskProbs, Relapse);
      var pCraving := ClassProbability(out.riskProbs, Craving);
      var pNeg := ClassProbability(out.riskProbs, NegativeMood);
      var pNeu := ClassProbability(out.riskProbs, Neutral);
      var pToxic := ClassProbability(out.riskProbs, Toxic);
      var riskScore := ComputeRiskScore(pRelapse, pCraving, pNeg, negWeight);
      outs := outs + [MessageScores(history[i], riskScore, out.pIsolation, pRelapse, pCraving, pNeg, pNeu, pToxic)];
      i := i + 1;
    }
  }

  /** The "Analyze" block's rolling aggregates: maxima for the spikes, means for the baseline. */
  datatype RollingSummary = RollingSummary(
    pCravingMax: real, pRelapseMax: real, pToxicMax: real,
    pNegativeMoodMean: real, pNeutralMean: real,
    pIsolationMax: real, riskScoreMax: real)

  /** One score of every message of the window, in window order. */
  function Column(outs: seq<MessageScores>, score: MessageScores -> real): (c: seq<real>)
    ensures |c| == |outs|
    ensures forall i :: 0 <= i < |outs| ==> c[i] == score(outs[i])
  {
    seq(|outs|, i requires 0 <= i < |outs| => score(outs[i]))
  }

  function RiskScoreOf(m: MessageScores): real { m.riskScore }
  function PRelapseOf(m: MessageScores): real { m.pRelapse }
  function PCravingOf(m: MessageScores): real { m.pCraving }
  function PToxicOf(m: MessageScores): real { m.pToxic }
  function PIsolationOf(m: MessageScores): real { m.pIsolation }
  function PNegativeMoodOf(m: MessageScores): real { m.pNegativeMood }
  function PNeutralOf(m: MessageScores): real { m.pNeutral }

  /** The largest value of one score over a non-empty window. */
  function MaxBy(outs: seq<MessageScores>, score: MessageScores -> real): (m: real)
    requires |outs| > 0
    ensures forall i :: 0 <= i < |outs| ==> score(outs[i]) <= m
    ensures exists i :: 0 <= i < |outs| && score(outs[i]) == m
  {
    var column := Column(outs, score);
    var m := Max(column);
    assert exists i :: 0 <= i < |outs| && column[i] == m;
    m
  }

  /** Rolling aggregation over a non-empty window (it always holds the message just submitted). */
  function Rolling(outs: seq<MessageScores>): (s: RollingSummary)
    requires |outs| > 0
    ensures forall i :: 0 <= i < |outs| ==>
      outs[i].riskScore <= s.riskScoreMax && outs[i].pRelapse <= s.pRelapseMax &&
      outs[i].pCraving <= s.pCravingMax && outs[i].pToxic <= s.pToxicMax &&
      outs[i].pIsolation <= s.pIsolationMax
    ensures exists i :: 0 <= i < |outs| && outs[i].riskScore == s.riskScoreMax
    ensures exists i :: 0 <= i < |outs| && outs[i].pRelapse == s.pRelapseMax
    ensures exists i :: 0 <= i < |outs| && outs[i].pCraving == s.pCravingMax
    ensures exists i :: 0 <= i < |outs| && outs[i].pToxic == s.pToxicMax
    ensures exists i :: 0 <= i < |outs| && outs[i].pIsolation == s.pIsolationMax
    ensures s.pNegativeMoodMean == Mean(Column(outs, PNegativeMoodOf))
    ensures s.pNeutralMean == Mean(Column(outs, PNeutralOf))
  {
    RollingSummary(
      MaxBy(outs, PCravingOf), MaxBy(outs, PRelapseOf), MaxBy(outs, PToxicOf),
      Mean(Column(outs, PNegativeMoodOf)), Mean(Column(outs, PNeutralOf)),
      MaxBy(outs, PIsolationOf), MaxBy(outs, RiskScoreOf))
  }

  /** What the page shows after fusion: label, reasons and the separate toxicity flag. */
  datatype WindowDecision = WindowDecision(riskLabel: RiskLabel, reasons: seq<FusionReason>, toxicFlag: int)

  /** The "Analyze" block's decision: fuse the rolling aggregates once, then read `T_toxic` for the flag. */
  function Decide(s: RollingSummary, thresholds: map<string, real>): (r: Result<WindowDecision, string>)
    ensures r.Success? ==>
      "T_toxic" in thresholds && (r.value.toxicFlag == 1 <==> s.pToxicMax >= thresholds["T_toxic"])
    ensures r.Success? <==> (forall k :: k in FusionKeys ==> k in thresholds) && "T_toxic" in thresholds
    ensures r.Success? ==>
      var f := ApplyFusionV2(s.riskScoreMax, s.pRelapseMax, s.pCravingMax, s.pIsolationMax, thresholds);
      f.Success? && r.value.riskLabel == f.value.riskLabel && r.value.reasons == f.value.reasons
    ensures r.Failure? ==>
      var f := ApplyFusionV2(s.riskScoreMax, s.pRelapseMax, s.pCravingMax, s.pIsolationMax, thresholds);
      r.error == (if f.Failure? then f.error else "T_toxic")
  {
    match ApplyFusionV2(s.riskScoreMax, s.pRelapseMax, s.pCravingMax, s.pIsolationMax, thresholds)
    case Failure(key) => Failure(key)
    case Success(f) =>
      if "T_toxic" !in thresholds then Failure("T_toxic")
      else Success(WindowDecision(f.riskLabel, f.reasons, ToxicFlag(s.pToxicMax, thresholds["T_toxic"])))
  }

  /** Toxicity is an informational axis: it never changes the fused label or reasons. */
  lemma ToxicityNeverChangesLabel(s: RollingSummary, pToxicMax: real, thresholds: map<string, real>)
    requires Decide(s, thresholds).Success?
    ensures Decide(s.(pToxicMax := pToxicMax), thresholds).Success?
    ensures Decide(s.(pToxicMax := pToxicMax), thresholds).value.riskLabel == Decide(s, thresholds).value.riskLabel
    ensures Decide(s.(pToxicMax := pToxicMax), thresholds).value.reasons == Decide(s, thresholds).value.reasons
  {
  }

  /**
   * Safety first: the label fused from the rolling maxima is at least as severe as
   * the label any single message of the window would get on its own.
   */
  lemma RollingLabelDominatesEachMessage(outs: seq<MessageScores>, th: FusionThresholds, i: nat)
    requires i < |outs|
    ensures var s := Rolling(outs);
      AtLeastAsSevere(Fuse(s.riskScoreMax, s.pRelapseMax, s.pCravingMax, s.pIsolationMax, th).riskLabel,
                      Fuse(outs[i].riskScore, outs[i].pRelapse, outs[i].pCraving, outs[i].pIsolation, th).riskLabel)
  {
    var s := Rolling(outs);
    FuseMonotone(outs[i].riskScore, outs[i].pRelapse, outs[i].pCraving, outs[i].pIsolation,
                 s.riskScoreMax, s.pRelapseMax, s.pCravingMax, s.pIsolationMax, th);
  }

  /** Every message's score dominates its relapse and craving, so the rolling score does too. */
  lemma RollingScoreDominatesSpikes(history: seq<string>, predict: string -> ModelOutput, negWeight: real)
    requires |history| > 0
    ensures var s := Rolling(WindowScores(history, predict, negWeight));
      s.pRelapseMax <= s.riskScoreMax && s.pCravingMax <= s.riskScoreMax
  {
    var outs := WindowScores(history, predict, negWeight);
    forall i | 0 <= i < |outs|
      ensures outs[i].pRelapse <= outs[i].riskScore && outs[i].pCraving <= outs[i].riskScore
    {
      assert outs[i] == ScoreMessage(history[i], predict(history[i]), negWeight);
    }
    MaximaBelowScoreMax(outs);
  }

  lemma MaximaBelowScoreMax(outs: seq<MessageScores>)
    requires |outs| > 0
    requires forall i :: 0 <= i < |outs| ==> outs[i].pRelapse <= outs[i].riskScore && outs[i].pCraving <= outs[i].riskScore
    ensures Rolling(outs).pRelapseMax <= Rolling(outs).riskScoreMax && Rolling(outs).pCravingMax <= Rolling(outs).riskScoreMax
  {
    var s := Rolling(outs);
    var j :| 0 <= j < |outs| && outs[j].pRelapse == s.pRelapseMax;
    var k :| 0 <= k < |outs| && outs[k].pCraving == s.pCravingMax;
  }

  /** The Streamlit session: `st.session_state.history`. */
  class ConversationSession {
    var history: seq<string>

    constructor()
      ensures history == []
    {
      history := [];
    }

    /**
     * One press of "Analyze" (the block under `st.button("Analyze")`): a non-blank message is stripped,
     * pushed into the rolling window, and the whole window is scored and fused.
     * Nothing happens to the window for a blank message or when the button was not
     * pressed.
     */
    method Submit(text: string, run: bool, predict: string -> ModelOutput, negWeight: real,
                  thresholds: map<string, real>)
      returns (shown: Option<Result<WindowDecision, string>>)
      modifies this
      ensures shown.None? <==> !run || Strip(text) == []
      ensures shown.None? ==> history == old(history)
      ensures shown.Some? ==>
        history == Rolled(old(history), Strip(text)) &&
        shown.value == Decide(Rolling(WindowScores(history, predict, negWeight)), thresholds)
    {
      var stripped := Strip(text);
      if run && stripped != [] {
        history := Rolled(history, stripped);
        var outs := ScoreHistory(history, predict, negWeight);
        var summary := Rolling(outs);
        shown := Some(Decide(summary, thresholds));
      } else {
        shown := None;
      }
    }

    /** "Clear conversation": the block under that button. */
    method Clear()
      modifies this
      ensures history == []
    {
      history := [];
    }
  }
}

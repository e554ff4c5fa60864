/**
 * The stateful half of the temporal risk engine
 * (services/social_service/app/db/temporal_engine.py): the message_predictions and
 * user_risk_profiles tables as maps inside an `Engine` object, the upsert of a
 * message, the history query, the profile update with its label hysteresis, and the
 * two dashboard queries. Connection pooling and SQL text are not modelled.
 */
module TemporalStore {
  import opened Wrappers
  import opened Constants
  import opened Reductions
  import opened Utils
  import opened Ordering
  import opened TemporalEngine
  import RiskAnalyzer

  /** The unique key of message_predictions: `(user_id, timestamp)`. */
  type MessageKey = (string, Timestamp)

  /** The row `store_message_prediction` inserts: each probability is `predictions.get(key, 0.0)`. */
  function PredictionRow(id: nat, messageText: string, ts: Timestamp, predictions: map<string, real>,
                         conversationType: string): MessagePrediction
  {
    MessagePrediction(id, messageText, ts,
      ClassProbability(predictions, KeyCraving), ClassProbability(predictions, KeyRelapse),
      ClassProbability(predictions, KeyNegativeMood), ClassProbability(predictions, KeyNeutral),
      ClassProbability(predictions, KeyToxic), ClassProbability(predictions, KeyIsolation),
      ClassProbability(predictions, KeyRiskScore), conversationType)
  }

  /**
   * `ON CONFLICT (user_id, timestamp) DO UPDATE`: an existing row keeps its id and its
   * conversation type and takes every other column from the incoming row.
   */
  function Upserted(existing: Option<MessagePrediction>, incoming: MessagePrediction): (m: MessagePrediction)
    ensures existing.None? ==> m == incoming
    ensures existing.Some? ==>
      m.id == existing.value.id && m.conversationType == existing.value.conversationType &&
      m.(id := incoming.id, conversationType := incoming.conversationType) == incoming
  {
    match existing
    case None => incoming
    case Some(old_) => incoming.(id := old_.id, conversationType := old_.conversationType)
  }

  function Lookup<K, V>(m: map<K, V>, k: K): (v: Option<V>)
    ensures v.Some? <==> k in m
    ensures v.Some? ==> v.value == m[k]
  {
    if k in m then Some(m[k]) else None
  }

  /** Storing what `RiskAnalyzer.analyze_message` returned records exactly the analyzer's values. */
  lemma AnalyzedMessageStoresAnalyzerValues(a: RiskAnalyzer.Analyzer, riskProbs: map<string, real>, pIsolation: real,
                                            id: nat, messageText: string, ts: Timestamp, conversationType: string)
    ensures var m := PredictionRow(id, messageText, ts, a.AnalyzeMessage(riskProbs, pIsolation), conversationType);
      m.pCraving == ClassProbability(riskProbs, Craving) && m.pRelapse == ClassProbability(riskProbs, Relapse) &&
      m.pNegativeMood == ClassProbability(riskProbs, NegativeMood) && m.pNeutral == ClassProbability(riskProbs, Neutral) &&
      m.pToxic == ClassProbability(riskProbs, Toxic) && m.pIsolation == pIsolation &&
      m.riskScore == a.ComputeRiskScore(m.pRelapse, m.pCraving, m.pNegativeMood)
  {
  }

  /**
   * `h` is what `get_user_messages` returns: every stored message of the user at or
   * after the cutoff, strictly ordered by timestamp (the key makes timestamps unique
   * per user).
   */
  predicate IsUserHistory(messages: map<MessageKey, MessagePrediction>, userId: string, cutoff: Timestamp,
                          h: seq<MessagePrediction>)
  {
    StrictlyOrdered(h) &&
    (forall i :: 0 <= i < |h| ==>
       h[i].timestamp >= cutoff && (userId, h[i].timestamp) in messages && messages[(userId, h[i].timestamp)] == h[i]) &&
    (forall k :: k in messages && k.0 == userId && k.1 >= cutoff ==> messages[k] in h)
  }

  predicate StrictlyOrdered(h: seq<MessagePrediction>) {
    forall i, j :: 0 <= i < j < |h| ==> h[i].timestamp < h[j].timestamp
  }

  /** The first message of a strictly ordered sequence is its earliest. */
  lemma HeadsEqual(h1: seq<MessagePrediction>, h2: seq<MessagePrediction>)
    requires StrictlyOrdered(h1) && StrictlyOrdered(h2) && h1 != [] && h2 != []
    requires forall m :: m in h1 <==> m in h2
    ensures h1[0] == h2[0]
  {
    assert h1[0] in h2 && h2[0] in h1;
    var i :| 0 <= i < |h1| && h1[i] == h2[0];
    assert h1[0].timestamp <= h2[0].timestamp;
    var j :| 0 <= j < |h2| && h2[j] == h1[0];
    assert h2[0].timestamp <= h1[0].timestamp;
  }

  /** Dropping a shared first message keeps the inclusion between the rests. */
  lemma TailsIncluded(h1: seq<MessagePrediction>, h2: seq<MessagePrediction>)
    requires StrictlyOrdered(h1) && h1 != [] && h2 != [] && h1[0] == h2[0]
    requires forall m :: m in h1 ==> m in h2
    ensures forall m :: m in h1[1..] ==> m in h2[1..]
  {
    forall m | m in h1[1..]
      ensures m in h2[1..]
    {
      var a :| 0 <= a < |h1| - 1 && h1[1..][a] == m;
      assert h1[a + 1] == m && m != h1[0];
      assert m in h2;
      var b :| 0 <= b < |h2| && h2[b] == m;
      assert b != 0 && h2[1..][b - 1] == m;
    }
  }

  /** Two strictly time-ordered sequences with the same messages are the same sequence. */
  lemma {:induction false} StrictlyOrderedUnique(h1: seq<MessagePrediction>, h2: seq<MessagePrediction>)
    requires StrictlyOrdered(h1) && StrictlyOrdered(h2)
    requires forall m :: m in h1 <==> m in h2
    ensures h1 == h2
  {
    assert h2 != [] ==> h2[0] in h2;
    if h1 != [] {
      assert h1[0] in h2;
      HeadsEqual(h1, h2);
      TailsIncluded(h1, h2);
      TailsIncluded(h2, h1);
      StrictlyOrderedUnique(h1[1..], h2[1..]);
      assert h1 == [h1[0]] + h1[1..] && h2 == [h2[0]] + h2[1..];
    }
  }

  /** The history a query returns is determined by the table, the user and the cutoff. */
  lemma UserHistoryIsUnique(messages: map<MessageKey, MessagePrediction>, userId: string, cutoff: Timestamp,
                            h1: seq<MessagePrediction>, h2: seq<MessagePrediction>)
    requires IsUserHistory(messages, userId, cutoff, h1) && IsUserHistory(messages, userId, cutoff, h2)
    ensures h1 == h2
  {
    forall m
      ensures m in h1 <==> m in h2
    {
      if m in h1 {
        var i :| 0 <= i < |h1| && h1[i] == m;
        assert (userId, m.timestamp) in messages;
      }
      if m in h2 {
        var i :| 0 <= i < |h2| && h2[i] == m;
        assert (userId, m.timestamp) in messages;
      }
    }
    StrictlyOrderedUnique(h1, h2);
  }

  // ---------------------------------------------------------------------------
  // Profiles

  /** One row of the user_risk_profiles table. */
  datatype ProfileRow = ProfileRow(
    lastUpdated: Timestamp,
    shortAvgRiskScore: real, shortMaxRiskScore: real, shortAvgIsolation: real,
    shortHighRiskCount: nat, shortToxicIncidents: nat,
    mediumAvgRiskScore: real, mediumMaxRiskScore: real, mediumAvgIsolation: real,
    riskTrend: RiskTrend, isolationTrend: RiskTrend,
    currentRiskLabel: RiskLabel, riskLabelSince: Timestamp,
    totalMessages7d: nat, buddyMessages7d: nat, counselorMessages7d: nat,
    lastMessageTime: Option<Timestamp>, daysSinceLastBuddyMsg: int,
    lastLoginTime: Timestamp, daysSinceLastLogin: int)

  /** What `update_user_risk_profile` returns. */
  datatype RiskProfile =
    | NoHistory(userId: string)
    | Computed(userId: string, riskLabel: RiskLabel, riskLabelSince: Timestamp, reasons: seq<Reason>,
               short: WindowMetrics, medium: WindowMetrics, engagement: Engagement,
               riskTrend: RiskTrend, isolationTrend: RiskTrend, lastUpdated: Timestamp)
  {
    /** The label a caller reads (`current_risk_label`); a user without history is LOW_RISK. */
    function Label(): RiskLabel {
      if NoHistory? then LowRisk else riskLabel
    }

    function Reasons(): seq<Reason> {
      if NoHistory? then [NoMessageHistory] else reasons
    }
  }

  /** The stored `(current_risk_label, risk_label_since)` of a user, if any. */
  function StoredLabel(profiles: map<string, ProfileRow>, userId: string): (s: Option<(RiskLabel, Timestamp)>)
    ensures s.Some? <==> userId in profiles
    ensures s.Some? ==> s.value == (profiles[userId].currentRiskLabel, profiles[userId].riskLabelSince)
  {
    if userId in profiles then Some((profiles[userId].currentRiskLabel, profiles[userId].riskLabelSince)) else None
  }

  /** Hysteresis in `update_user_risk_profile`: the label keeps its start time while it does not change. */
  function LabelSince(stored: Option<(RiskLabel, Timestamp)>, riskLabel: RiskLabel, now: Timestamp): (since: Timestamp)
    ensures stored.Some? && stored.value.0 == riskLabel ==> since == stored.value.1
    ensures !(stored.Some? && stored.value.0 == riskLabel) ==> since == now
  {
    if stored.Some? && stored.value.0 == riskLabel then stored.value.1 else now
  }

  /** The stored `(label, since)` after a series of profile updates, each `(label, now)`. */
  function ReplayLabels(updates: seq<(RiskLabel, Timestamp)>): Option<(RiskLabel, Timestamp)> {
    if updates == [] then None
    else
      var last := updates[|updates| - 1];
      Some((last.0, LabelSince(ReplayLabels(updates[..|updates| - 1]), last.0, last.1)))
  }

  /** The index where the final run of equal labels starts. */
  function RunStart(updates: seq<(RiskLabel, Timestamp)>): (k: nat)
    requires |updates| > 0
    ensures k < |updates|
    ensures forall j :: k <= j < |updates| ==> updates[j].0 == updates[|updates| - 1].0
    ensures k > 0 ==> updates[k - 1].0 != updates[|updates| - 1].0
  {
    if |updates| == 1 then 0
    else if updates[|updates| - 2].0 == updates[|updates| - 1].0 then RunStart(updates[..|updates| - 1])
    else |updates| - 1
  }

  /** `risk_label_since` is the time of the update that started the current run of equal labels. */
  lemma {:induction false} LabelSinceIsRunStart(updates: seq<(RiskLabel, Timestamp)>)
    requires |updates| > 0
    ensures ReplayLabels(updates) == Some((updates[|updates| - 1].0, updates[RunStart(updates)].1))
  {
    if |updates| > 1 {
      var init := updates[..|updates| - 1];
      LabelSinceIsRunStart(init);
    }
  }

  /** The profile `update_user_risk_profile` computes from a fetched history. */
  function Assess(userId: string, history: seq<MessagePrediction>, thresholds: map<string, real>,
                  stored: Option<(RiskLabel, Timestamp)>, now: Timestamp): (p: RiskProfile)
    ensures p.NoHistory? <==> history == []
    ensures p.userId == userId
    ensures |p.Reasons()| == 1
    ensures p.Computed? ==> p.riskLabelSince == LabelSince(stored, p.riskLabel, now) && p.lastUpdated == now
    ensures p.Computed? ==>
      p.short == ComputeWindowMetrics(history, 7, now) && p.medium == ComputeWindowMetrics(history, 30, now) &&
      p.engagement == ComputeEngagementMetrics(history, now)
    ensures p.Computed? ==>
      p.riskTrend == DetectTrend(history, RiskScoreMetric, now) &&
      p.isolationTrend == DetectTrend(history, IsolationMetric, now)
    ensures p.Computed? ==>
      var d := ApplyFinalRiskDecision(p.short, p.medium, p.engagement, p.riskTrend, p.isolationTrend, thresholds);
      p.riskLabel == d.riskLabel && p.reasons == d.reasons
  {
    if history == [] then NoHistory(userId)
    else
      var short := ComputeWindowMetrics(history, 7, now);
      var medium := ComputeWindowMetrics(history, 30, now);
      var riskTrend := DetectTrend(history, RiskScoreMetric, now);
      var isolationTrend := DetectTrend(history, IsolationMetric, now);
      var engagement := ComputeEngagementMetrics(history, now);
      var decision := ApplyFinalRiskDecision(short, medium, engagement, riskTrend, isolationTrend, thresholds);
      Computed(userId, decision.riskLabel, LabelSince(stored, decision.riskLabel, now), decision.reasons,
               short, medium, engagement, riskTrend, isolationTrend, now)
  }

  /** A message of the last seven days at or above T_high makes the user HIGH_RISK. */
  lemma RecentSpikeMakesHighRisk(userId: string, history: seq<MessagePrediction>, thresholds: map<string, real>,
                                 stored: Option<(RiskLabel, Timestamp)>, now: Timestamp, m: MessagePrediction)
    requires m in history && m.timestamp >= now - 7 * MicrosPerDay && m.riskScore >= THigh(thresholds)
    ensures Assess(userId, history, thresholds, stored, now).Label() == HighRisk
  {
    assert m in Windowed(history, 7, now);
  }

  /** Three high-risk messages in the last seven days make the user HIGH_RISK. */
  lemma RepeatedHighRiskMakesHighRisk(userId: string, history: seq<MessagePrediction>, thresholds: map<string, real>,
                                      stored: Option<(RiskLabel, Timestamp)>, now: Timestamp)
    requires |Filter(Windowed(history, 7, now), IsHighRiskMessage)| >= 3
    ensures Assess(userId, history, thresholds, stored, now).Label() == HighRisk
  {
    assert history != [];
  }

  /** The row `update_user_risk_profile` upserts for a computed profile. */
  function ProfileRowOf(p: RiskProfile, loginTimestamp: Option<Timestamp>, now: Timestamp): (row: ProfileRow)
    requires p.Computed?
    ensures row.lastUpdated == p.lastUpdated
    ensures row.shortAvgRiskScore == p.short.avgRiskScore && row.shortMaxRiskScore == p.short.maxRiskScore
    ensures row.shortAvgIsolation == p.short.avgIsolation
    ensures row.shortHighRiskCount == p.short.highRiskCount && row.shortToxicIncidents == p.short.toxicIncidents
    ensures row.mediumAvgRiskScore == p.medium.avgRiskScore && row.mediumMaxRiskScore == p.medium.maxRiskScore
    ensures row.mediumAvgIsolation == p.medium.avgIsolation
    ensures row.riskTrend == p.riskTrend && row.isolationTrend == p.isolationTrend
    ensures row.currentRiskLabel == p.riskLabel && row.riskLabelSince == p.riskLabelSince
    ensures row.totalMessages7d == p.engagement.totalMessages7d
    ensures row.buddyMessages7d == p.engagement.buddyMessages7d
    ensures row.counselorMessages7d == p.engagement.counselorMessages7d
    ensures row.lastMessageTime == p.engagement.lastMessageTime
    ensures row.daysSinceLastBuddyMsg == p.engagement.daysSinceLastBuddyMsg
    ensures row.lastLoginTime == loginTimestamp.GetOr(now)
    ensures row.daysSinceLastLogin == CalculateDaysAgo(loginTimestamp, now) || loginTimestamp.None?
    ensures loginTimestamp.None? ==> row.daysSinceLastLogin == 0
  {
    ProfileRow(
      p.lastUpdated,
      p.short.avgRiskScore, p.short.maxRiskScore, p.short.avgIsolation, p.short.highRiskCount, p.short.toxicIncidents,
      p.medium.avgRiskScore, p.medium.maxRiskScore, p.medium.avgIsolation,
      p.riskTrend, p.isolationTrend, p.riskLabel, p.riskLabelSince,
      p.engagement.totalMessages7d, p.engagement.buddyMessages7d, p.engagement.counselorMessages7d,
      p.engagement.lastMessageTime, p.engagement.daysSinceLastBuddyMsg,
      loginTimestamp.GetOr(now), if loginTimestamp.Some? then DaysBetween(now, loginTimestamp.value) else 0)
  }

  /**
   * Two successive profile updates that compute the same label leave `risk_label_since` at the
   * time the first of them set, and an update that changes the label restarts it at its own time.
   */
  lemma SuccessiveUpdatesKeepSince(profiles: map<string, ProfileRow>, userId: string, thresholds: map<string, real>,
                                   h1: seq<MessagePrediction>, login1: Option<Timestamp>, t1: Timestamp,
                                   h2: seq<MessagePrediction>, t2: Timestamp)
    requires h1 != [] && h2 != []
    ensures var p1 := Assess(userId, h1, thresholds, StoredLabel(profiles, userId), t1);
            var after := profiles[userId := ProfileRowOf(p1, login1, t1)];
            var p2 := Assess(userId, h2, thresholds, StoredLabel(after, userId), t2);
            (p2.riskLabel == p1.riskLabel ==> p2.riskLabelSince == p1.riskLabelSince) &&
            (p2.riskLabel != p1.riskLabel ==> p2.riskLabelSince == t2) &&
            (p1.riskLabelSince == t1 || (userId in profiles && p1.riskLabelSince == profiles[userId].riskLabelSince))
  {
  }

  /** The columns `get_all_user_profiles` selects. */
  datatype DashboardRow = DashboardRow(
    userId: string, currentRiskLabel: RiskLabel, riskTrend: RiskTrend, isolationTrend: RiskTrend,
    shortAvgRiskScore: real, shortAvgIsolation: real, daysSinceLastBuddyMsg: int, lastUpdated: Timestamp)

  function DashboardRowOf(userId: string, row: ProfileRow): DashboardRow {
    DashboardRow(userId, row.currentRiskLabel, row.riskTrend, row.isolationTrend,
                 row.shortAvgRiskScore, row.shortAvgIsolation, row.daysSinceLastBuddyMsg, row.lastUpdated)
  }

  /** Every row sits under its own timestamp, and ids are distinct and already issued. */
  predicate WellFormedTable(messages: map<MessageKey, MessagePrediction>, nextMessageId: nat) {
    nextMessageId >= 1 &&
    (forall k :: k in messages ==> messages[k].timestamp == k.1 && 1 <= messages[k].id < nextMessageId) &&
    (forall k1, k2 :: k1 in messages && k2 in messages && messages[k1].id == messages[k2].id ==> k1 == k2)
  }

  /** The dashboard order: label priority ascending, then short-window average risk descending. */
  predicate DashboardOrdered(rows: seq<DashboardRow>) {
    forall i, j :: 0 <= i < j < |rows| ==>
      Priority(rows[i].currentRiskLabel) < Priority(rows[j].currentRiskLabel) ||
      (Priority(rows[i].currentRiskLabel) == Priority(rows[j].currentRiskLabel) &&
       rows[i].shortAvgRiskScore >= rows[j].shortAvgRiskScore)
  }

  /** The `ORDER BY` key of the dashboard query. */
  function DashboardKey(table: map<string, ProfileRow>): string -> SortKey {
    (u: string) => if u in table then (Priority(table[u].currentRiskLabel), -table[u].shortAvgRiskScore) else (0, 0.0)
  }

  function DashboardRows(ids: seq<string>, table: map<string, ProfileRow>): (rows: seq<DashboardRow>)
    requires forall i :: 0 <= i < |ids| ==> ids[i] in table
    ensures |rows| == |ids|
    ensures forall i :: 0 <= i < |ids| ==> rows[i] == DashboardRowOf(ids[i], table[ids[i]]) && rows[i].userId == ids[i]
  {
    seq(|ids|, i requires 0 <= i < |ids| => DashboardRowOf(ids[i], table[ids[i]]))
  }

  /** Ids sorted by the dashboard key give rows in dashboard order. */
  lemma SortedIdsGiveOrderedRows(ids: seq<string>, table: map<string, ProfileRow>)
    requires forall i :: 0 <= i < |ids| ==> ids[i] in table
    requires SortedBy(ids, DashboardKey(table))
    ensures DashboardOrdered(DashboardRows(ids, table))
  {
    var rows := DashboardRows(ids, table);
    forall i, j | 0 <= i < j < |rows|
      ensures Priority(rows[i].currentRiskLabel) < Priority(rows[j].currentRiskLabel) ||
        (Priority(rows[i].currentRiskLabel) == Priority(rows[j].currentRiskLabel) &&
         rows[i].shortAvgRiskScore >= rows[j].shortAvgRiskScore)
    {
      assert KeyLe(DashboardKey(table)(ids[i]), DashboardKey(table)(ids[j]));
    }
  }

  /** `TemporalRiskEngine`: the two tables it reads and writes, and the id sequence. */
  class Engine {
    var messages: map<MessageKey, MessagePrediction>
    var profiles: map<string, ProfileRow>
    var nextMessageId: nat

    /** Every row sits under its own timestamp, and ids are distinct and already issued. */
    predicate Valid()
      reads this
    {
      WellFormedTable(messages, nextMessageId)
    }

    constructor()
      ensures Valid()
      ensures messages == map[] && profiles == map[] && nextMessageId == 1
    {
      messages := map[];
      profiles := map[];
      nextMessageId := 1;
    }

    /**
     * `store_message_prediction`. The id sequence advances on every
     * call, also when the insert turns into an update.
     */
    method StoreMessagePrediction(userId: string, messageText: string, predictions: map<string, real>,
                                  conversationType: string, timestamp: Option<Timestamp>, now: Timestamp)
      returns (id: nat)
      requires Valid()
      modifies this
      ensures Valid()
      ensures var key := (userId, timestamp.GetOr(now));
        messages == old(messages)[key := Upserted(Lookup(old(messages), key),
          PredictionRow(old(nextMessageId), messageText, key.1, predictions, conversationType))] &&
        id == messages[key].id &&
        (key in old(messages) ==> id == old(messages)[key].id) &&
        (key !in old(messages) ==> id == old(nextMessageId))
      ensures profiles == old(profiles) && nextMessageId == old(nextMessageId) + 1
    {
      var key := (userId, timestamp.GetOr(now));
      var row := Upserted(Lookup(messages, key), PredictionRow(nextMessageId, messageText, key.1, predictions, conversationType));
      messages := messages[key := row];
      id := row.id;
      nextMessageId := nextMessageId + 1;
    }

    /** `get_user_messages`. */
    method GetUserMessages(userId: string, daysBack: int, now: Timestamp) returns (history: seq<MessagePrediction>)
      requires Valid()
      ensures IsUserHistory(messages, userId, WindowStart(daysBack, now), history)
    {
      var cutoff := WindowStart(daysBack, now);
      var table := messages;
      var keys := set k | k in table && k.0 == userId && k.1 >= cutoff;
      var ordered := SortByKey(keys, (k: MessageKey) => (k.1, 0.0));
      assert forall i :: 0 <= i < |ordered| ==> ordered[i] in keys;
      history := seq(|ordered|, i requires 0 <= i < |ordered| => table[ordered[i]]);
      forall i, j | 0 <= i < j < |history|
        ensures history[i].timestamp < history[j].timestamp
      {
        assert KeyLe((ordered[i].1, 0.0), (ordered[j].1, 0.0));
        assert ordered[i] != ordered[j] && ordered[i].0 == ordered[j].0 == userId;
      }
      forall k | k in table && k.0 == userId && k.1 >= cutoff
        ensures table[k] in history
      {
        assert k in ordered;
        var i :| 0 <= i < |ordered| && ordered[i] == k;
        assert history[i] == table[k];
      }
    }

    /** The first half of `update_user_risk_profile`: fetch the last 30 days of messages and compute the profile. */
    method AssessUser(userId: string, thresholds: map<string, real>, now: Timestamp)
      returns (profile: RiskProfile, ghost history: seq<MessagePrediction>)
      requires Valid()
      ensures IsUserHistory(messages, userId, WindowStart(30, now), history)
      ensures profile == Assess(userId, history, thresholds, StoredLabel(profiles, userId), now)
    {
      var stored := StoredLabel(profiles, userId);
      var fetched := GetUserMessages(userId, 30, now);
      history := fetched;
      profile := Assess(userId, fetched, thresholds, stored, now);
    }

    /** The second half of `update_user_risk_profile`: upsert the user's row; a user without history gets no row. */
    method WriteProfile(profile: RiskProfile, loginTimestamp: Option<Timestamp>, now: Timestamp)
      modifies this
      ensures messages == old(messages) && nextMessageId == old(nextMessageId)
      ensures profiles == if profile.Computed? then old(profiles)[profile.userId := ProfileRowOf(profile, loginTimestamp, now)]
                          else old(profiles)
    {
      if profile.Computed? {
        profiles := profiles[profile.userId := ProfileRowOf(profile, loginTimestamp, now)];
      }
    }

    /**
     * `update_user_risk_profile`: compute the profile from the last
     * 30 days and upsert the user's row, unless there is no history at all.
     */
    method UpdateUserRiskProfile(userId: string, thresholds: map<string, real>, loginTimestamp: Option<Timestamp>,
                                 now: Timestamp)
      returns (profile: RiskProfile, ghost history: seq<MessagePrediction>)
      requires Valid()
      modifies this
      ensures Valid()
      ensures messages == old(messages) && nextMessageId == old(nextMessageId)
      ensures IsUserHistory(messages, userId, WindowStart(30, now), history)
      ensures profile == Assess(userId, history, thresholds, StoredLabel(old(profiles), userId), now)
      ensures profiles == if profile.Computed? then old(profiles)[userId := ProfileRowOf(profile, loginTimestamp, now)]
                          else old(profiles)
    {
      profile, history := AssessUser(userId, thresholds, now);
      WriteProfile(profile, loginTimestamp, now);
    }

    /** `get_users_needing_check_in`. */
    method GetUsersNeedingCheckIn(daysSilent: int) returns (users: seq<string>)
      ensures forall u :: u in users <==>
        u in profiles && profiles[u].daysSinceLastBuddyMsg >= daysSilent && profiles[u].currentRiskLabel != HighRisk
      ensures Distinct(users)
      ensures forall i, j :: 0 <= i < j < |users| ==>
        profiles[users[i]].daysSinceLastBuddyMsg >= profiles[users[j]].daysSinceLastBuddyMsg
    {
      var table := profiles;
      var selected := set u | u in table && table[u].daysSinceLastBuddyMsg >= daysSilent && table[u].currentRiskLabel != HighRisk;
      users := SortByKey(selected, (u: string) => if u in table then (-table[u].daysSinceLastBuddyMsg, 0.0) else (0, 0.0));
      assert forall i :: 0 <= i < |users| ==> users[i] in selected;
      forall i, j | 0 <= i < j < |users|
        ensures table[users[i]].daysSinceLastBuddyMsg >= table[users[j]].daysSinceLastBuddyMsg
      {
        assert users[i] in selected && users[j] in selected;
      }
    }

    /** `get_all_user_profiles`: most urgent label first, then higher average risk first. */
    method GetAllUserProfiles() returns (rows: seq<DashboardRow>)
      ensures |rows| == |profiles|
      ensures forall i :: 0 <= i < |rows| ==>
        rows[i].userId in profiles && rows[i] == DashboardRowOf(rows[i].userId, profiles[rows[i].userId])
      ensures forall u :: u in profiles ==> exists i :: 0 <= i < |rows| && rows[i].userId == u
      ensures forall i, j :: 0 <= i < j < |rows| ==> rows[i].userId != rows[j].userId
      ensures DashboardOrdered(rows)
    {
      var table := profiles;
      var ids := SortByKey(table.Keys, DashboardKey(table));
      rows := DashboardRows(ids, table);
      SortedIdsGiveOrderedRows(ids, table);
      forall u | u in table
        ensures exists i :: 0 <= i < |rows| && rows[i].userId == u
      {
        var i :| 0 <= i < |ids| && ids[i] == u;
        assert rows[i].userId == u;
      }
    }
  }
}

# Recoverly risk engine — a Dafny model

This project models the risk engine of the Recoverly backend in Dafny and proves properties of
the model. The backend is a support service for people in addiction recovery. Its risk engine
has three parts:

- **Message level** (`services/social_service/app.py`, the demo screen). Each submitted message
  gets class probabilities and an isolation probability from two classifiers. The screen keeps a
  rolling window of the last five messages and takes the maximum of each spike probability and
  of the fused risk score over the window. It then runs the `apply_fusion_v2` threshold ladder
  once, giving HIGH_RISK, MODERATE_RISK, ISOLATION_ONLY or LOW_RISK with one reason. A toxicity
  flag is computed separately and does not affect the label.
- **Analyzer** (`services/social_service/app/ml/risk_analyzer.py`). It fuses the classifier
  outputs into `risk_score = max(p_relapse, p_craving, neg_weight · p_negative_mood)` and builds
  the seven-entry prediction dictionary that the message store keeps.
- **Temporal engine** (`services/social_service/app/db/temporal_engine.py`). It keeps one row per
  `(user, timestamp)` message and one profile row per user. From the last 30 days of a user's
  messages it computes:
  - 7- and 30-day window metrics;
  - a week-over-week trend for the risk score and for isolation;
  - buddy/counselor engagement.

  A nine-rule user-level ladder then picks the label. Label hysteresis keeps `risk_label_since`
  while the label stays the same. The engine also serves the check-in list and the dashboard
  ordering.
- **Helpers** (`shared/core/utils.py`): `safe_divide`, `truncate_text`, `calculate_days_ago` and
  `format_timestamp`.

Files and modules:

- `constants.dfy` (`Constants`): labels, trends, conversation types, class names and prediction keys.
- `reductions.dfy` (`Reductions`): the list filters and the `sum`/`max`/`mean` reductions the
  stages share, with their facts.
- `rule_ladder.dfy` (`RuleLadder`): a first-match rule table. Both fusion ladders are proved equal
  to such a table.
- `utils.dfy` (`Utils`): time arithmetic, the utility helpers, and the ISO rendering of `format_timestamp`.
- `risk_analyzer.dfy` (`RiskAnalyzer`): `compute_risk_score` and `analyze_message`.
- `social_app.dfy` (`SocialApp`): the message-level pipeline and the session that holds the window.
- `temporal_engine.dfy` (`TemporalEngine`): the pure stages of the temporal engine.
- `ordering.dfy` (`Ordering`): the `ORDER BY` clauses, as a sort over a key.
- `temporal_store.dfy` (`TemporalStore`): the two tables as maps in class `Engine`, and the
  operations that read and write them.

Time is modelled as integer microseconds. `(a - b).days` rounds toward minus infinity, as
`timedelta` does. Every operation that reads the clock takes one explicit `now`. Probabilities
are real numbers.

How the code treats missing or unusual input, and how the model follows it:

- `apply_fusion_v2` reads its six thresholds with `thresholds["…"]` (`app.py:95-100`), so a
  missing key raises `KeyError`; the model returns `Failure(key)` naming the first missing key.
  `apply_final_risk_decision` reads `thresholds.get('T_high', 0.7)` and similar
  (`temporal_engine.py:427`, `446`), so it falls back to defaults; so does
  `TemporalEngine.Threshold`.
- No probability is clamped or range-checked anywhere, so the model accepts any real value.
  Range facts are stated as lemmas under explicit hypotheses (`RiskScoreInUnitInterval`,
  `WindowMetricsInUnitInterval`).
- A user without messages gets a LOW_RISK answer and no profile row is written (`NoHistory`).

Two behaviours of the code are stated as lemmas rather than assumed away:

- The ISOLATION_ONLY rule compares the average risk with a fixed 0.3, not with `T_mid`
  (`temporal_engine.py:460`). With the default `T_mid` of 0.3, a higher average risk never
  lowers the label (`HigherAverageNeverLowersLabel`). With a configured `T_mid` above 0.3, an
  average between 0.3 and `T_mid` falls through to LOW_RISK while a lower one gives
  ISOLATION_ONLY (`IsolationOnlyGapAboveDefaultMid`). The thresholds are configuration that is
  not part of this model, so this may never occur in practice.
- `calculate_days_ago` returns -1 both for a missing timestamp and for a timestamp less than a
  day in the future (`DaysAgoSentinelIsAmbiguous`).

## Model

| member | source | states |
|---|---|---|
| Constants.Priority | services/social_service/app/db/temporal_engine.py:629-635 | the dashboard rank of a label lies in 1..4 (HIGH_RISK 1, MODERATE_RISK 2, ISOLATION_ONLY 3, otherwise 4) |
| Constants.ClassProbability | services/social_service/app/ml/risk_analyzer.py:168-172 | `probs.get(name, 0.0)`: the reported probability, or 0 for a class the classifier did not report |
| Reductions.Filter | services/social_service/app/db/temporal_engine.py:290 | a list comprehension keeps exactly the elements that pass the test, each as often as it occurs in the input, and drops every other one; it never grows the list |
| Reductions.FilterConcat | services/social_service/app/db/temporal_engine.py:290 | the comprehension keeps the input's order: filtering a concatenation is the concatenation of the filtered parts |
| Reductions.MeanAtMostMax | services/social_service/app/db/temporal_engine.py:314-315 | the mean of a non-empty list never exceeds its maximum |
| Reductions.FilterOfFilter | services/social_service/app/db/temporal_engine.py:378-381 | filtering the 7-day list again by type is the same as filtering once by both tests |
| RiskAnalyzer.Analyzer.ComputeRiskScore | services/social_service/app/ml/risk_analyzer.py:129-151 | the score is at least each of `p_relapse`, `p_craving`, `neg_weight·p_negative_mood`, and equals one of them |
| RiskAnalyzer.Analyzer.AnalyzeMessage | services/social_service/app/ml/risk_analyzer.py:153-186 | the dictionary has exactly the seven keys: each class probability read with the 0.0 default, the isolation probability, and the risk score computed from the stored values |
| RiskAnalyzer.RiskScoreInUnitInterval | services/social_service/app/ml/risk_analyzer.py:144-151 | with probabilities and weight in [0, 1] the score is in [0, 1], as the docstring promises |
| RiskAnalyzer.RiskScoreMonotone | services/social_service/app/ml/risk_analyzer.py:147-151 | raising any non-negative probability never lowers the score, for any weight |
| SocialApp.ComputeRiskScore | services/social_service/app.py:85-86 | the screen's score dominates the three terms and equals one of them |
| SocialApp.ReadFusionThresholds | services/social_service/app.py:95-100 | reading succeeds iff all six keys are present. Otherwise the error names the first missing key in read order. On success it holds exactly the six values |
| SocialApp.Fuse | services/social_service/app.py:102-115 | each of the four labels holds iff its rule fires and no earlier rule fires; exactly one reason |
| SocialApp.ApplyFusionV2 | services/social_service/app.py:88-115 | fails iff some fusion key is missing, naming the first missing key in reading order; otherwise it is the ladder over the read thresholds |
| SocialApp.FuseIsFirstMatch | services/social_service/app.py:102-115 | the ladder equals the first firing rule of its five-rule table, with the LOW_RISK fallback |
| SocialApp.FuseMonotone | services/social_service/app.py:102-115 | raising any input never gives a less severe label |
| SocialApp.ToxicFlag | services/social_service/app.py:117-118 | `int(p_toxic >= T_toxic)`: the flag is 0 or 1, and 1 iff the threshold is reached |
| SocialApp.Strip | services/social_service/app.py:149-152 | `str.strip()`: the result is the part of the text between its leading and trailing whitespace, its ends are not whitespace, and it is empty iff the text is all whitespace |
| SocialApp.Rolled | services/social_service/app.py:152-156 | after append and trim, the history is the last min(n+1, 5) items of old history + [text], ending with the text |
| SocialApp.RollAllKeepsLastFive | services/social_service/app.py:151-156 | after any series of submissions the window holds exactly the last five texts, oldest first |
| SocialApp.ScoreMessage | services/social_service/app.py:162-188 | each per-message record holds the class probabilities with the 0.0 default and the isolation probability, and its score is `compute_risk_score` of its own relapse, craving and mood probabilities |
| SocialApp.ScoreHistory | services/social_service/app.py:159-188 | the loop yields one scored record per message of the window, in window order |
| SocialApp.Rolling | services/social_service/app.py:197-218 | each rolling maximum (score, relapse, craving, toxicity, isolation) dominates every message's value and is attained by some message; the negative-mood and neutral baselines are the means over the window |
| SocialApp.Decide | services/social_service/app.py:220-230 | succeeds iff all fusion keys and `T_toxic` are present; on success the label and reasons are those `apply_fusion_v2` gives for the rolling maxima, and the toxic flag is 1 iff the maximum toxicity reaches `T_toxic`; on failure the error is the fusion's missing key, else `T_toxic` |
| SocialApp.ToxicityNeverChangesLabel | services/social_service/app.py:229-230 | toxicity is a separate axis: changing the maximum toxicity leaves label and reasons unchanged |
| SocialApp.RollingLabelDominatesEachMessage | services/social_service/app.py:204-227 | the label of the rolling window is at least as severe as the label any single message in it would get |
| SocialApp.RollingScoreDominatesSpikes | services/social_service/app.py:204-216 | over a window, the maximum relapse and craving probabilities never exceed the maximum risk score |
| SocialApp.ConversationSession.constructor | services/social_service/app.py:16-17 | a new session starts with an empty history |
| SocialApp.ConversationSession.Submit | services/social_service/app.py:149-230 | nothing happens unless Analyze was pressed and the stripped text is non-empty. Otherwise the stripped text is rolled into the history and the decision over the new window is shown |
| SocialApp.ConversationSession.Clear | services/social_service/app.py:266-267 | clearing empties the history |
| TemporalEngine.MeanMetric | services/social_service/app/db/temporal_engine.py:314-316 | the mean of a metric over a non-empty list never exceeds its maximum |
| TemporalEngine.ComputeWindowMetrics | services/social_service/app/db/temporal_engine.py:267-320 | the window holds exactly the messages at or after `now - days`. The metrics are all zero iff the window is empty. Each average is the mean (sum over count) of that column over the window. The counts are the high-risk and toxic filters and are bounded by the message count. The maximum dominates and is attained, and the average is at most the maximum |
| TemporalEngine.WiderWindowCountsMore | services/social_service/app/db/temporal_engine.py:288-311 | a longer window never has fewer messages or fewer high-risk messages |
| TemporalEngine.WindowMetricsInUnitInterval | services/social_service/app/db/temporal_engine.py:313-320 | with scores and isolation in [0, 1], the averages and the maximum lie in [0, 1] |
| TemporalEngine.DetectTrend | services/social_service/app/db/temporal_engine.py:322-365 | STABLE with fewer than five messages, or with either weekly bucket empty. Otherwise: RAPID_DECLINE iff there is a spike of 0.8 or more in the last two days; then IMPROVING iff delta < -0.15 and DECLINING iff delta > 0.15 |
| TemporalEngine.DaysSinceLatest | services/social_service/app/db/temporal_engine.py:384-386 | days since the latest buddy message: no more than for any buddy message, and equal for one of them |
| TemporalEngine.DaysSinceBuddy | services/social_service/app/db/temporal_engine.py:380-388 | over the week's messages: 999 iff there is no buddy message, otherwise at most 7 and the age in days of the latest buddy message |
| TemporalEngine.ComputeEngagementMetrics | services/social_service/app/db/temporal_engine.py:367-402 | 7-day counts are the filters; buddy + counselor ≤ total; 999 iff no buddy message, otherwise at most 7 and equal to the age in days of the latest buddy message of the week; last message time is the attained maximum, absent iff no messages |
| TemporalEngine.Threshold | services/social_service/app/db/temporal_engine.py:427 | `thresholds.get(key, default)` |
| TemporalEngine.ApplyFinalRiskDecision | services/social_service/app/db/temporal_engine.py:404-466 | HIGH_RISK iff one of the four high rules fires. MODERATE_RISK iff no high rule fires and a moderate one does. ISOLATION_ONLY iff only the isolation rule fires. Exactly one reason |
| TemporalEngine.FinalDecisionIsFirstMatch | services/social_service/app/db/temporal_engine.py:418-466 | the decision equals the first firing rule of the eight-rule table in source order, with the LOW_RISK fallback, reason included |
| TemporalEngine.DecisionIgnoresMediumWindowAndIsolationTrend | services/social_service/app/db/temporal_engine.py:404-466 | the 30-day metrics and the isolation trend never influence the decision |
| TemporalEngine.WorseTrendNeverLowersLabel | services/social_service/app/db/temporal_engine.py:435-452 | a worse risk trend never gives a less severe label |
| TemporalEngine.HigherMaxNeverLowersLabel | services/social_service/app/db/temporal_engine.py:427-429 | a higher 7-day maximum never gives a less severe label |
| TemporalEngine.HigherAverageNeverLowersLabel | services/social_service/app/db/temporal_engine.py:440-462 | with `T_mid` at most 0.3, a higher 7-day average never gives a less severe label |
| TemporalEngine.IsolationOnlyGapAboveDefaultMid | services/social_service/app/db/temporal_engine.py:446-462 | with `T_mid` = 0.5, average 0.25 gives ISOLATION_ONLY but average 0.35 gives LOW_RISK |
| Ordering.InsertByKey | services/social_service/app/db/temporal_engine.py:262 | inserting into a key-sorted list keeps it sorted, adds exactly the element, and keeps it duplicate-free |
| Ordering.SortByKey | services/social_service/app/db/temporal_engine.py:262 | the result lists each element of the set exactly once, in key order |
| TemporalStore.Upserted | services/social_service/app/db/temporal_engine.py:219-228 | a new key stores the incoming row; an existing key keeps its id and conversation type and takes every other column from the incoming row |
| TemporalStore.AnalyzedMessageStoresAnalyzerValues | services/social_service/app/db/temporal_engine.py:230-238 | a row stored from `analyze_message`'s dictionary holds the analyzer's probabilities and risk score |
| TemporalStore.StrictlyOrderedUnique | services/social_service/app/db/temporal_engine.py:262 | two strictly time-ordered lists with the same messages are equal |
| TemporalStore.UserHistoryIsUnique | services/social_service/app/db/temporal_engine.py:254-263 | the query's answer is determined by the table: any two answers are equal |
| TemporalStore.StoredLabel | services/social_service/app/db/temporal_engine.py:520-524 | the stored label and since-time are present iff the user has a profile row |
| TemporalStore.LabelSince | services/social_service/app/db/temporal_engine.py:526-531 | the since-time is kept when the stored label equals the new one, otherwise it is `now` |
| TemporalStore.LabelSinceIsRunStart | services/social_service/app/db/temporal_engine.py:526-531 | after any series of updates, the since-time is the time of the update that started the current run of equal labels |
| TemporalStore.Assess | services/social_service/app/db/temporal_engine.py:482-531 | no profile iff no history. Otherwise the profile carries the 7- and 30-day window metrics, the engagement metrics and both trends of the history, the label and reasons `apply_final_risk_decision` gives for them, the hysteresis since-time and `now`; it always has exactly one reason |
| TemporalStore.RecentSpikeMakesHighRisk | services/social_service/app/db/temporal_engine.py:427-429 | a message of the last 7 days at or above `T_high` makes the user HIGH_RISK |
| TemporalStore.RepeatedHighRiskMakesHighRisk | services/social_service/app/db/temporal_engine.py:431-433 | three high-risk messages in the last 7 days make the user HIGH_RISK |
| TemporalStore.SuccessiveUpdatesKeepSince | services/social_service/app/db/temporal_engine.py:519-531 | across two updates, an unchanged label keeps the first update's since-time and a changed label restarts it at the second update's time |
| TemporalStore.ProfileRowOf | services/social_service/app/db/temporal_engine.py:533-583 | every column of the written row is the matching field of the profile (update time, window metrics, trends, label and since-time, engagement counts). Last login is the login time, or `now` when absent. Days since login is their day difference, or 0 when absent |
| TemporalStore.SortedIdsGiveOrderedRows | services/social_service/app/db/temporal_engine.py:629-636 | ids sorted by (rank, −average risk) give rows in dashboard order |
| TemporalStore.Engine.constructor | services/social_service/app/db/temporal_engine.py:82-186 | on a fresh database, a new engine has empty tables and issues ids from 1 |
| TemporalStore.Engine.StoreMessagePrediction | services/social_service/app/db/temporal_engine.py:188-242 | upserts under (user, timestamp or now). Returns the existing id on conflict, otherwise the next id. The sequence advances either way, the tables stay well formed, and profiles are unchanged |
| TemporalStore.Engine.GetUserMessages | services/social_service/app/db/temporal_engine.py:244-265 | returns exactly the user's rows from the cutoff on, strictly ordered by time |
| TemporalStore.Engine.AssessUser | services/social_service/app/db/temporal_engine.py:482-512 | the profile is computed from the fetched 30-day history and the stored label |
| TemporalStore.Engine.WriteProfile | services/social_service/app/db/temporal_engine.py:515-583 | a computed profile replaces the user's row; a user without history gets no row; messages are untouched |
| TemporalStore.Engine.UpdateUserRiskProfile | services/social_service/app/db/temporal_engine.py:468-599 | the profile comes from the user's 30-day history under the stored label. Only the user's profile row changes, and the message table stays well formed |
| TemporalStore.Engine.GetUsersNeedingCheckIn | services/social_service/app/db/temporal_engine.py:601-615 | exactly the users silent at least `days_silent` days who are not HIGH_RISK, each once, most silent first |
| TemporalStore.Engine.GetAllUserProfiles | services/social_service/app/db/temporal_engine.py:617-639 | one row per profile, each user once, each row matching the stored columns, most urgent label first and then higher average risk first |
| Utils.DaysBetween | shared/core/utils.py:39 | `(later - earlier).days` is the floor of the difference in whole days |
| Utils.WindowStart | shared/core/utils.py:57-59 | the window start lies exactly `days` days before `now` |
| Utils.CalculateDaysAgo | shared/core/utils.py:35-39 | -1 for a missing timestamp, otherwise the floor of the elapsed days |
| Utils.DaysAgoSentinelIsAmbiguous | shared/core/utils.py:35-39 | a timestamp less than a day in the future also yields -1 |
| Utils.SafeDivide | shared/core/utils.py:62-64 | the default when the denominator is 0, otherwise the quotient |
| Utils.PrefixSlice | shared/core/utils.py:69 | Python's `text[:k]`, negative `k` included: a prefix of the stated length |
| Utils.TruncateText | shared/core/utils.py:67-69 | text unchanged when it fits. Otherwise `text[:max_length] + "..."`, of length max_length + 3 for a non-negative limit |
| Utils.DateTimeRoundTrip | shared/core/utils.py:44 | the calendar fields of an instant are valid `datetime` fields and convert back to the same instant |
| Utils.IsoformatRoundTrip | shared/core/utils.py:44 | parsing the `isoformat` text of a datetime gives back its fields |
| Utils.FormatTimestamp | shared/core/utils.py:42-44 | `None` iff the timestamp is missing |
| Utils.FormatTimestampRoundTrip | shared/core/utils.py:42-44 | the formatted text of an instant reads back as that instant |

## Left out

- Database plumbing is not modelled: the connection pool, `get_cursor` commit/rollback and the
  DDL in `_init_database`. The two tables are maps in `TemporalStore.Engine`, and each
  operation is atomic.
- `log_intervention`, `get_intervention_history` and `close` are not modelled. They are a plain
  insert, a select and a shutdown, with no logic.
- Classifier inference is not modelled: tokenizers, models, `softmax`, `predict_risk_probs` and
  `predict_iso_prob`. The screen's per-message output is a `predict` function parameter, and the
  analyzer's outputs are inputs.
- The screen's display calls are not modelled: metrics, JSON and the conversation expander.
  The negative-mood and neutral means are only displayed, not used by the decision;
  `SocialApp.Rolling` computes them as window means.
- Floating point is not modelled: probabilities are reals, so rounding, NaN and infinities are out.
- Storage narrowing is not modelled. The message columns `p_craving` … `risk_score` are Postgres
  `REAL`, which is single precision, so a stored value reads back rounded to about seven
  significant digits, and a value very close to 0.7 or `T_high` can compare differently after the
  round trip. `TemporalStore.AnalyzedMessageStoresAnalyzerValues` is exact only in the model.
- `TemporalStore.Engine.constructor`: `_init_database` uses `CREATE TABLE IF NOT EXISTS`, so on an
  existing database the rows and the id sequence carry over; the model starts from a fresh one.
- The `:.3f` formatting inside user-level reasons is not modelled. Those reasons are the
  `Reason` datatype carrying the numbers. The message-level reasons are the exact texts.
- The clock is not read. Each operation takes one `now`, while the source calls
  `datetime.now()` or uses `CURRENT_TIMESTAMP` several times per operation.
- Time zones are not modelled: timestamps are naive, as the code treats them.
- `TemporalStore.Engine.GetUserMessages` orders strictly by timestamp. This is possible because
  `(user_id, timestamp)` is unique in the table. The order in which equal rows are returned is
  therefore never exercised.
- `UNKNOWN`, the fifth value of `RiskLevel`, is not modelled. The engine never produces it.
- `ConversationType` is not modelled as an enumeration. The message table stores the type as
  free text, so the model keeps a string and names `buddy`/`counselor`/`group`/`family` as
  constants.
- `Utils.FormatTimestamp` renders naive datetimes only; time-zone offsets are not rendered.
  Its instants are the years 1 to 9999 that `datetime` can hold.
- `Utils.IsoformatRoundTrip`: the reader reads only the two layouts `isoformat` writes. It is
  not the whole of `datetime.fromisoformat`, and `parse_timestamp` itself is not modelled.
- `setup_logging` is not modelled; it configures logging only.
- Python default arguments are not modelled as defaults; every caller passes the value:
  `conversation_type='buddy'` of `store_message_prediction`, `days_back=30` of
  `get_user_messages`, `days_silent=3` of `get_users_needing_check_in`, `metric='risk_score'` of
  `detect_trend`, `max_length=100` of `truncate_text` and `default=0.0` of `safe_divide`. The
  engine's own calls pass 30 days and both metrics explicitly, as the model does.
- SQL NULLs in the profile table are not modelled. Every column of a written row has a value,
  and `last_message_time` is an `Option`.

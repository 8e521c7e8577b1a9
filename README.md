# RiskLock core in Dafny

RiskLock is a read-only risk dashboard for prop-firm traders. A FastAPI backend pulls open trades and account figures from a broker connector. It grades them against the firm's rules and raises alerts. A React front end shows the results and the staff console. This project models the parts of RiskLock that decide things and proves what they promise. Each core file becomes one Dafny module:

- `risk.dfy` (`Risk`): the risk evaluator `RiskEngine`.
  - `get_daily_stats`.
  - `check_risk`:
    - threshold resolution;
    - the lot-size check and session tagging;
    - reconciliation of live trades with the ticket-keyed trade table, with one rule snapshot per call and a commit or rollback;
    - the three-band daily-loss grading and the drawdown grading;
    - the predictive metrics;
    - the decision to notify.
  - `CheckRisk` runs the steps in the source's order. `Evaluate` is the reference report it is proved against.
- `intelligence.dfy` (`Intelligence`): `IntelligenceEngine.analyze_behavior`.
  - It covers overtrading, the revenge-trade scan over the newest-first order, the session buckets and the score.
  - `stable_sort.dfy` (`StableSort`) is the stable descending sort that Python's `sorted(..., reverse=True)` performs.
- `notifications.dfy` (`Notifications`): `send_risk_alert`. It is a per-account state machine with a status gate, a 60-minute cooldown, an owner lookup, channel dispatch and the `last_notification_at` stamp.
- `brokers.dfy` (`Brokers`): the broker-account router. It covers tier limits, the single active account, preset application, the per-field diff with its audit entry, and the store of accounts.
- `dashboard.dfy` (`Dashboard`): connector selection, free-tier gating of the insights, the onboarding block, and the portfolio aggregation across accounts.
- `broker_base.dfy` (`BrokerBase`): the connector defaults and the three blocked execution calls.
- `auth.dfy` (`Auth`), `team.dfy` (`Team`), `accountability.dfy` (`Accountability`) and `support.dfy` (`Support`): the routers for authentication, founder-only staff administration, goals and alerts, and live support.
  - Live support includes the keyword bot, the connection registry and the message loop.
- `admin_sidebar.dfy` (`AdminSidebar`), `team_management.dfy` (`TeamManagement`) and `onboarding.dfy` (`Onboarding`): the three front-end helpers. They are the admin menu filter, the staff console's presence label, search and permission switch, and the onboarding wizard.
- `wrappers.dfy` (`Wrappers`), `text.dfy` (`Text`) and `seqs.dfy` (`Seqs`): `Option`/`Result`, HTTP errors, the substring test and ASCII lower-casing used by the bot and the search, and the subsequence order the list filters keep.

How the source's constructs map to Dafny:
- Database tables become sequences or maps inside classes: `BrokerStore`, `TradeStore`, `UserDirectory`, `InsightsStore` and `SupportDesk`.
- Each class has a `Valid()` invariant that its methods keep: unique ids, keys equal to tickets, and links that point at existing rows.
- A router handler becomes a method with `modifies` on its store. Its `ensures` states the whole new state and the HTTP result.
- Loops in the source stay loops, each proved against a specification function. The properties the source promises are lemmas about those functions.
- Money and volumes are `real`. Times are whole seconds, or milliseconds in the front end.
- The clock, the UTC hour, decryption, credential checks, password hashing and whether a commit succeeds are parameters.

## Model

| member | source | states |
|---|---|---|
| Risk.Worse | backend/app/engine/risk.py:143-144 | the combined status is at least as severe as both inputs and is one of them |
| Risk.GetDailyStats | backend/app/engine/risk.py:22-33 | the loop's totals are the sums of profit and volume over the trades, and the count is the number of trades |
| Risk.SumProfitAppend | backend/app/engine/risk.py:25-27 | the daily profit of two batches of trades is the sum of their daily profits |
| Risk.SumProfitNonNegative | backend/app/engine/risk.py:25-27 | trades with no loss give a non-negative daily profit |
| Risk.ResolveThresholds | backend/app/engine/risk.py:42-50 | with an account's rules the limits are the balance times the configured percentages and the lot cap is the configured one; without rules they are the defaults 5000, 10000 and 10 |
| Risk.SessionTag | backend/app/engine/risk.py:67-70 | London for hours 8 to 15, New York for 16 to 21 (the earlier branch shadows 14 and 15), Asia otherwise |
| Risk.LotViolationsCount | backend/app/engine/risk.py:59-63 | one lot-size violation per trade over the cap, each naming a volume above the cap |
| Risk.LotViolationsNonEmpty | backend/app/engine/risk.py:59-63 | there is a lot-size violation exactly when some trade's volume is above the cap |
| Risk.LotViolationsContain | backend/app/engine/risk.py:61-62 | every trade over the cap has its violation in the list |
| Risk.Drawdown | backend/app/engine/risk.py:136-138 | the drawdown is `max(0, balance - equity)`: never negative and never below the balance-equity gap |
| Risk.DailyStatusMonotone | backend/app/engine/risk.py:119-131 | a larger daily loss never grades to a milder daily status |
| Risk.DailyBandMessage | backend/app/engine/risk.py:123-131 | each daily band adds exactly its one message (breach, critical, warning) and the safe band adds none |
| Risk.AvgLossPerTrade | backend/app/engine/risk.py:149-150 | the average is positive exactly when there are trades and a loss, and then times the count it is the loss |
| Risk.Buffer | backend/app/engine/risk.py:152 | the buffer is `max(0, limit - loss)` |
| Risk.BufferPct | backend/app/engine/risk.py:183 | the percentage is the buffer over the limit times 100, and 0 for a non-positive limit |
| Risk.TradesToBreach | backend/app/engine/risk.py:153-184 | the estimate lies in 0..99, is 99 with no average loss, and otherwise is the whole number of average losses the buffer absorbs |
| Risk.ReconcileSeenRows | backend/app/engine/risk.py:74-110 | after the pass every stored trade either is unchanged or carries the profit and risk score of the last listed trade with its ticket |
| Risk.ReconcileInserts | backend/app/engine/risk.py:76-103 | the pass inserts one new record per listed trade whose ticket was not stored, in order, and creates a rule snapshot only when an account's rules are given and something is inserted |
| Risk.UnseenTickets | backend/app/engine/risk.py:74-76 | every trade the pass inserts is a listed trade whose ticket was not stored |
| Risk.SnapshotLinkStable | backend/app/engine/risk.py:104-110 | an update of a stored trade keeps its ticket, session and rule-snapshot link |
| Risk.AddRowsContents | backend/app/engine/risk.py:103-113 | a commit of distinct new trades adds exactly their tickets, stores each as inserted and leaves the other rows alone |
| Risk.CommitUniqueIffUnseenDistinct | backend/app/engine/risk.py:74-103 | the inserted tickets are distinct exactly when the unstored listed tickets are |
| Risk.ExampleDuplicateNewTicket | backend/app/engine/risk.py:74-103 | a new ticket listed twice in one call is inserted twice, so the unique-ticket commit fails |
| Risk.NotifyAsWritten | backend/app/engine/risk.py:156-172 | the alert call as written never schedules a notification |
| Risk.NotifyAsWrittenRejectsDueAlert | backend/app/engine/risk.py:164-170 | whenever an alert is due, the call as written is rejected for the unknown `only_email` argument |
| Risk.Notify | backend/app/engine/risk.py:156-170 | an alert is scheduled exactly when a store and the account's rules are given and the status is critical or breach, carrying the status, the violations and e-mail-only for a non-pro owner |
| Risk.CheckRisk | backend/app/engine/risk.py:35-186 | the report is the reference evaluation, the notification is the corrected scheduling rule of the first finding, and the store either commits the reconciled rows and snapshot or is rolled back |
| Risk.GradeDailyLoss | backend/app/engine/risk.py:119-131 | the daily band's message is appended and the status becomes the worse of the old status and the band |
| Risk.GradeDrawdown | backend/app/engine/risk.py:140-144 | the drawdown band's message is appended and the status becomes the worse of the old status and the band, so a breach is never lowered |
| Risk.ReconcileLoop | backend/app/engine/risk.py:57-110 | the loop computes the reconciliation pass, exactly the lot-size violations, and a warning exactly when there is one |
| Risk.PersistTrades | backend/app/engine/risk.py:56-116 | the reconciliation is committed when the commit succeeds with distinct new tickets, and otherwise the store is unchanged; the store stays valid |
| Risk.CommitKeepsValid | backend/app/engine/risk.py:101-113 | after a commit every row is keyed by its ticket and every snapshot link points at an existing snapshot |
| Risk.BreachNeverDowngraded | backend/app/engine/risk.py:123-144 | a daily loss or drawdown at its limit makes the report a breach, a drawdown at 90% makes it at least critical, and the report is never milder than the daily band |
| Risk.OversizedLotWarns | backend/app/engine/risk.py:61-63 | with a store, a trade over the lot cap puts its violation in the report and makes it at least a warning |
| Risk.NoStoreNoLotCheck | backend/app/engine/risk.py:56 | without a store no lot-size violation is reported |
| Risk.MetricsBounds | backend/app/engine/risk.py:149-185 | the buffer and drawdown are non-negative, trades-to-breach lies in 0..99 and is 99 with no loss or no trades, and the buffer percentage is 0 for a zero limit and otherwise within 0..100 |
| Risk.BufferPctAtMostHundred | backend/app/engine/risk.py:183 | a buffer within the limit is at most 100% |
| Risk.ProfitableTradesNoDailyViolation | backend/app/engine/risk.py:119-131 | with no losing trade and a positive limit the daily band is safe with no message |
| Risk.ZeroLimitGradesBreach | backend/app/engine/risk.py:123 | a zero daily limit grades even a zero loss as a breach |
| Risk.ExampleWarningBand | backend/app/engine/risk.py:120-152 | a 4000 loss on a 100000 balance at 5% is a warning with a 1000 buffer |
| Risk.ExampleCriticalAndBreachBands | backend/app/engine/risk.py:121-128 | 4800 of a 5000 limit is critical and 5000 is a breach |
| Intelligence.CountRecentTrades | backend/app/engine/intelligence.py:43-51 | the loop counts exactly the trades with a parseable open time less than an hour old |
| Intelligence.CountRecentBounds | backend/app/engine/intelligence.py:45-51 | the count is at most the number of trades, 0 when no open time parses, and all of them when all are recent |
| Intelligence.OvertradingFlagIff | backend/app/engine/intelligence.py:53-58 | one overtrading flag exactly when five or more trades are recent, a warning below ten and critical from ten on, whose message names the count |
| Intelligence.SortByOpenTimeDesc | backend/app/engine/intelligence.py:62-66 | the sorted trades are a permutation of the input |
| Intelligence.SortByOpenTimeDescCorrect | backend/app/engine/intelligence.py:62-66 | the order descends by open time, trades with equal keys keep their input order (a stable sort), and trades without a parseable time sort as `datetime.min`, so only such trades follow them |
| Intelligence.ScanRevenge | backend/app/engine/intelligence.py:68-86 | the scan finds a pair exactly when some adjacent pair is a revenge pattern (a loss closed under ten minutes before a larger-volume open), and stops at the first |
| Intelligence.RevengeFlagIff | backend/app/engine/intelligence.py:66-86 | a non-empty history gets a revenge flag exactly when the time-sorted trades contain the pattern |
| Intelligence.SingleTradeNoRevenge | backend/app/engine/intelligence.py:68 | fewer than two trades never show the pattern |
| Intelligence.AccumulateSessions | backend/app/engine/intelligence.py:89-98 | the buckets hold, for London, NY and Asia, the number of trades tagged with that session and the sum of their non-zero profits |
| Intelligence.PerformanceShape | backend/app/engine/intelligence.py:100-107 | only the three session names appear, a name appears exactly when some trade carries it, and its count is that number of trades |
| Intelligence.BucketCountPositive | backend/app/engine/intelligence.py:93-103 | a bucket's count is positive exactly when some trade carries that session name |
| Intelligence.ForeignTagIgnored | backend/app/engine/intelligence.py:93-95 | a trade without a session or with another tag does not change the report |
| Intelligence.EvaluatorNewYorkNeverBucketed | backend/app/engine/intelligence.py:89-95 | a trade tagged "New York" by the risk evaluator is never counted, since the buckets are named "NY" |
| Intelligence.AnalyzeBehavior | backend/app/engine/intelligence.py:32-113 | the analysis is the reference analysis of the trades at `now` |
| Intelligence.EmptyAnalysis | backend/app/engine/intelligence.py:33-38 | no trades give no flags, no sessions and score 100 |
| Intelligence.ScoreRange | backend/app/engine/intelligence.py:112 | at most one flag of each kind, and the score is 100 minus 20 per flag, so 60, 80 or 100 |
| Notifications.AlertAccount.constructor | backend/app/models/sql/broker.py:25-29 | a new account has e-mail alerts on, Telegram off, no chat id and no stamp |
| Notifications.Decide | backend/app/services/notifications.py:25-39 | an alert is delivered exactly when the status is critical or breach, the 60-minute cooldown is over and the owner exists; otherwise the first failing gate decides |
| Notifications.Channels | backend/app/services/notifications.py:42-47 | e-mail goes out exactly when enabled, Telegram exactly when enabled with a non-empty chat id |
| Notifications.SendRiskAlert | backend/app/services/notifications.py:19-55 | a delivered alert sends the enabled channels and a blocked one sends nothing; the stamp becomes `now` only when delivered and committed; no other field changes |
| Notifications.QuietStatusChangesNothing | backend/app/services/notifications.py:25-26 | a safe or warning status is turned away and keeps the stamp |
| Notifications.BlockedCallKeepsStamp | backend/app/services/notifications.py:29-39 | a call in the cooldown or for a missing owner delivers nothing and keeps the stamp |
| Notifications.DeliveredAlertStamps | backend/app/services/notifications.py:50-52 | a delivered and committed alert stamps `now` |
| Notifications.CooldownDeliversAtMostOnce | backend/app/services/notifications.py:16-50 | two calls within 60 minutes never both deliver |
| Notifications.FailedCommitAllowsRepeat | backend/app/services/notifications.py:51-55 | when the stamp's commit fails, a later alert is delivered again |
| Notifications.CooldownExpires | backend/app/services/notifications.py:29-33 | 60 minutes after the stamp an alert is delivered again |
| StableSort.SortDesc | backend/app/engine/intelligence.py:66 | sorting keeps the number of trades |
| StableSort.SortPermutes | backend/app/engine/intelligence.py:66 | the sorted list is a permutation of the input |
| StableSort.SortDescending | backend/app/engine/intelligence.py:66 | the sorted list descends by key |
| StableSort.SortIsStable | backend/app/engine/intelligence.py:66 | the elements with any one key keep their input order, as Python's stable sort with `reverse=True` does |
| StableSort.InsertPermutes | backend/app/engine/intelligence.py:66 | inserting adds exactly the one element |
| StableSort.InsertDescending | backend/app/engine/intelligence.py:66 | inserting into a descending list keeps it descending |
| StableSort.InsertWithKey | backend/app/engine/intelligence.py:66 | an inserted element goes after every element with an equal key |
| Brokers.PyEqIsEquivalence | backend/app/routers/brokers.py:201 | the model of Python's `==` on setting values is an equivalence that equates 5 with 5.0 and True with 1 but not None with 0 |
| Brokers.UserAccounts | backend/app/routers/brokers.py:78 | the listing holds exactly the caller's accounts |
| Brokers.MarkLimited | backend/app/routers/brokers.py:80-82 | every account keeps its fields and is marked limited exactly when its position is at or past the tier's limit |
| Brokers.LimitedSuffix | backend/app/routers/brokers.py:80-82 | the unlimited accounts are the first `limit` ones (none for a non-positive limit), and every account after a limited one is limited |
| Brokers.GetBrokers | backend/app/routers/brokers.py:72-84 | the response is the caller's accounts in order, each marked limited exactly from the tier's limit on |
| Brokers.ConnectKeepsValid | backend/app/routers/brokers.py:135-150 | deactivating the caller's accounts and appending the new row keeps ids unique and below the next id, and every row's settings complete |
| Brokers.RowUpdateKeepsValid | backend/app/routers/brokers.py:199-202 | replacing one row by a row with the same id and complete settings keeps the store valid |
| Brokers.DisplayName | backend/app/routers/brokers.py:142 | the account's name is the given non-empty name, else "platform - account id" |
| Brokers.NewSettings | backend/app/routers/brokers.py:137-148 | a new account carries every risk-setting field |
| Brokers.ConnectError | backend/app/routers/brokers.py:97-126 | 403 exactly when the caller is at the account limit, 400 exactly when under it with another provider or failed credentials, and no error otherwise |
| Brokers.ConnectBroker | backend/app/routers/brokers.py:86-154 | an error leaves the store unchanged; success deactivates the caller's other accounts and appends the new active account under the next id |
| Brokers.ConnectLeavesOneActive | backend/app/routers/brokers.py:135-144 | after a connect the new account is the caller's only active one and other users' accounts are untouched |
| Brokers.Deactivate | backend/app/routers/brokers.py:135 | deactivating keeps the number of accounts |
| Brokers.ApplyPreset | backend/app/routers/brokers.py:188-191 | a preset overwrites exactly the fields it gives a non-null value and keeps the rest |
| Brokers.PresetStep | backend/app/routers/brokers.py:175-195 | no preset key changes nothing; a known non-empty preset is recorded and applied; an empty or unknown one clears the preset name only |
| Brokers.DiffAndApply | backend/app/routers/brokers.py:197-203 | the loop's settings and change log are the reference overwrite and change set |
| Brokers.OnStep | backend/app/routers/brokers.py:199-203 | one step of the loop overwrites and logs a field exactly when it was submitted with a different value |
| Brokers.ChangesExact | backend/app/routers/brokers.py:198-203 | the change log holds exactly the submitted fields whose value differs, with old and new values; unsubmitted fields keep their values and submitted ones end equal to the request |
| Brokers.ResubmitChangesNothing | backend/app/routers/brokers.py:198-205 | submitting the same update again logs no change and leaves the settings as they are |
| Brokers.FindOwned | backend/app/routers/brokers.py:164-167 | the lookup finds an account with that id owned by the caller, or none exists |
| Brokers.UpdateRiskSettings | backend/app/routers/brokers.py:156-218 | a foreign or unknown id is a 404 that changes nothing; otherwise the preset then the overrides are applied, an audit entry is added exactly when some field changed, and the account is persisted |
| Brokers.PresetOnlyUpdateLostAsWritten | backend/app/routers/brokers.py:175-218 | a request naming only a known preset returns the preset's values, but as written nothing is committed since no field was diffed |
| Brokers.CommitsExtendsAsWritten | backend/app/routers/brokers.py:205 | the corrected commit rule commits whenever the written one does, and agrees with it when no preset is named |
| BrokerBase.LastSync | backend/app/engine/broker/base.py:44-47 | the last sync time is the connector's own stamp, or None when it has none |
| BrokerBase.ConfidenceStatus | backend/app/engine/broker/base.py:49-54 | the confidence status is the connector's own value, or "PAUSED" when it has none |
| BrokerBase.PlaceOrder | backend/app/engine/broker/base.py:57-59 | placing an order always fails with a not-implemented error saying the system is read-only |
| BrokerBase.ModifyOrder | backend/app/engine/broker/base.py:61-63 | modifying an order always fails with the read-only error |
| BrokerBase.ClosePosition | backend/app/engine/broker/base.py:65-67 | closing a position always fails with the read-only error |
| BrokerBase.ReadOnlyMessageNamesDesign | backend/app/engine/broker/base.py:59 | the error's message says the system is read-only by design |
| BrokerBase.ExecutionBlockedAlike | backend/app/engine/broker/base.py:57-67 | the three execution calls fail with the same error whatever the connector and arguments |
| BrokerBase.BareConnectorIsPaused | backend/app/engine/broker/base.py:44-54 | a connector that never synced reports no sync time and "PAUSED" |
| Dashboard.FirstActive | backend/app/routers/dashboard.py:29-32 | the lookup finds an active account of the user exactly when one exists, and then the first in table order |
| Dashboard.SelectConnector | backend/app/routers/dashboard.py:25-49 | a MetaApi account gives a MetaApi connector on its decrypted token, or the mock when decryption fails; anything else uses the environment credentials when both are set, else the mock |
| Dashboard.DecryptFailureNeverUsesEnv | backend/app/routers/dashboard.py:34-42 | a MetaApi account whose token does not decrypt falls back to the mock, never to the environment credentials |
| Dashboard.ConnectorSources | backend/app/routers/dashboard.py:34-46 | a live connector runs either on the chosen account's own decrypted token and id or on the environment credentials |
| Dashboard.OtherProviderUsesEnv | backend/app/routers/dashboard.py:34-46 | a given account of another provider is ignored in favour of the environment credentials |
| Dashboard.GateInsights | backend/app/routers/dashboard.py:97-104 | the loop computes the tier-gated insights |
| Dashboard.StripPrefix | backend/app/routers/dashboard.py:104 | removing the free-tier prefix of a prefixed message gives back the rest of the message |
| Dashboard.FreeTierKeepsFlags | backend/app/routers/dashboard.py:98-104 | a free-tier caller keeps every flag with its kind and severity and the original message behind the "[Free Tier] " prefix, with no session data and the upgrade prompt in place of the score |
| Dashboard.PaidTierUntouched | backend/app/routers/dashboard.py:98 | any other tier gets the analysis unchanged |
| Dashboard.OnboardingAsWritten | backend/app/routers/dashboard.py:117-126 | as written, the onboarding block fails with a 500 exactly when there is an active account |
| Dashboard.OverviewFailsForActiveAccountAsWritten | backend/app/routers/dashboard.py:83-126 | as written, every user with an active account gets a 500 from the overview |
| Dashboard.OnboardingFlags | backend/app/routers/dashboard.py:117-122 | has_account exactly with an active account, has_preset exactly when it names a preset, has_alerts exactly when Telegram alerts are on, and never has_report |
| Dashboard.OnboardingFlagsExtendsAsWritten | backend/app/routers/dashboard.py:117-122 | the corrected block agrees with the written one wherever the latter does not fail |
| Dashboard.DashboardOverview | backend/app/routers/dashboard.py:83-122 | the overview's insights are the gated analysis of the trades and its onboarding block is drawn from the first active account |
| Dashboard.Successes | backend/app/routers/dashboard.py:163-164 | dropping the failed fetches never lengthens the list |
| Dashboard.FailedFetchIgnored | backend/app/routers/dashboard.py:158-164 | an account whose fetch failed contributes nothing, exactly as if it were not listed |
| Dashboard.AllFailedIsEmpty | backend/app/routers/dashboard.py:137-210 | when every fetch fails the totals are zero and there are no summaries, warnings or exposure, yet the account count is the number of accounts |
| Dashboard.SymbolsInExposure | backend/app/routers/dashboard.py:175-179 | every symbol seen has an exposure entry |
| Dashboard.SymbolsExact | backend/app/routers/dashboard.py:175-179 | the exposure's symbols are exactly the traded ones, each listed once in first-seen order |
| Dashboard.LongShortSplit | backend/app/routers/dashboard.py:181-184 | a symbol's long and short volumes add up to its whole traded volume |
| Dashboard.AbsentSymbolHasNoVolume | backend/app/routers/dashboard.py:175-184 | a symbol no trade names has no long and no short volume |
| Dashboard.ExposureStep | backend/app/routers/dashboard.py:175-184 | one trade adds its volume to its symbol's long side for a buy and its short side otherwise |
| Dashboard.AddTrade | backend/app/routers/dashboard.py:176-184 | the step adds one trade's volume and records a new symbol the first time it is seen |
| Dashboard.AddTrades | backend/app/routers/dashboard.py:175-184 | the inner loop extends the exposure and symbol order by one account's trades |
| Dashboard.WarningsForExact | backend/app/routers/dashboard.py:196-200 | a symbol is flagged hedged exactly when it has both long and short volume, and high-exposure exactly when either side exceeds 5 lots, naming the larger side |
| Dashboard.CollectWarnings | backend/app/routers/dashboard.py:195-200 | the warnings loop produces the reference warnings in symbol order |
| Dashboard.Aggregate | backend/app/routers/dashboard.py:166-192 | the loop's totals are the sums of balance, equity and profit (a missing key as 0), with the exposure, symbol order and summaries of all successful accounts |
| Dashboard.GetPortfolioOverview | backend/app/routers/dashboard.py:128-210 | the response is the reference portfolio of the accounts and their fetch results |
| Auth.NewUser | backend/app/models/sql/user.py:13-30 | a new user is an active, unsuspended "USER" on the standard tier with one account allowed, no permissions, not onboarded and not flagged for re-authentication |
| Auth.UserDirectory.constructor | backend/app/models/sql/user.py:9-10 | an empty user table is valid |
| Auth.FindByEmail | backend/app/routers/auth.py:44 | the lookup returns the first user with the e-mail, or none exists |
| Auth.FindById | backend/app/routers/team.py:59 | the lookup returns a user with the id, or none exists |
| Auth.Register | backend/app/routers/auth.py:41-58 | a taken e-mail is refused and changes nothing; otherwise the new user with the defaults is appended under the next id |
| Auth.LoginGate | backend/app/routers/auth.py:65-85 | login passes exactly for a known e-mail with a matching password on an unsuspended account; a failure is the bad-credentials 401 or the suspended 403 |
| Auth.Login | backend/app/routers/auth.py:60-108 | a refused login changes nothing; a successful one stamps the user's last login and last activity and returns the claims of the stamped user |
| Auth.UnknownEmailLikeWrongPassword | backend/app/routers/auth.py:66-80 | an unknown e-mail and a wrong password give the same 401, so a caller cannot tell them apart |
| Auth.SuspensionNeedsCredentials | backend/app/routers/auth.py:74-85 | the suspended 403 is only ever given to a caller whose e-mail and password are right |
| Auth.CurrentUserGate | backend/app/routers/auth.py:119-141 | a session passes exactly for a known, unsuspended subject without a pending re-authentication; suspension gives 403, a pending re-authentication the "session terminated" 401, anything else the credentials 401 |
| Auth.GetCurrentUser | backend/app/routers/auth.py:113-153 | the result follows the gate; a terminated session clears the flag and answers 401, or answers 500 with the flag kept when that commit fails; a passing one stamps login, activity and session start and returns the stamped row, or after a failed commit keeps and returns the stored row |
| Auth.ReauthIsOneShot | backend/app/routers/auth.py:134-141 | after one "session terminated" refusal the same token passes on the next call; when clearing the flag fails, the table is unchanged |
| Auth.SuspensionPrecedesReauth | backend/app/routers/auth.py:131-135 | a suspended user is refused as suspended and keeps a pending re-authentication untouched |
| Auth.EmailLookupStable | backend/app/routers/auth.py:127-135 | updates that keep every e-mail keep every lookup by e-mail |
| Auth.CheckPermission | backend/app/routers/auth.py:155-162 | a founder, or a user granted the permission, passes unchanged; anyone else gets 403 "Permission denied: <permission>" |
| Auth.FounderPassesEveryGuard | backend/app/routers/auth.py:157-158 | a founder passes every permission guard |
| Auth.NewUserHasNoPermission | backend/app/routers/auth.py:159-160 | a freshly registered user passes no permission guard |
| Team.StaffOf | backend/app/routers/team.py:31-32 | the staff query returns exactly the users with a staff role |
| Team.StaffOfAppend | backend/app/routers/team.py:32 | the staff filter keeps table order: filtering two parts is filtering each |
| Team.ListEmployees | backend/app/routers/team.py:26-32 | a non-founder gets 403; a founder gets exactly the users with a staff role |
| Team.CreateEmployee | backend/app/routers/team.py:34-52 | a non-founder or a taken e-mail is refused without change; otherwise a user with the given role and permissions is appended |
| Team.ForceLogout | backend/app/routers/team.py:54-65 | a non-founder or an unknown id is refused without change; otherwise only that user is flagged for re-authentication |
| Team.ResetPassword | backend/app/routers/team.py:67-83 | non-founder, unknown id and missing or empty password are refused without change; otherwise only that user's hash is replaced and re-authentication forced |
| Team.Patched | backend/app/routers/team.py:128-133 | a non-empty role, a given suspension flag and a given permission map replace the old ones; nothing else changes |
| Team.EmptyUpdateChangesNothing | backend/app/routers/team.py:128-133 | an update that sets nothing leaves the user as it was |
| Team.PatchIdempotent | backend/app/routers/team.py:128-133 | applying the same update twice is applying it once |
| Team.UpdateEmployee | backend/app/routers/team.py:119-136 | a non-founder or an unknown id is refused without change; otherwise only that user is patched and returned |
| Team.DeleteEmployee | backend/app/routers/team.py:138-149 | a non-founder or an unknown id is refused without change; otherwise exactly that row is removed and the others keep their order |
| Team.RemovedRowsKeepIndices | backend/app/routers/team.py:147 | after the removal the earlier rows keep their place and the later ones move up by one |
| Team.ActivitiesOf | backend/app/routers/team.py:91 | the activities are exactly the employee's |
| Team.ModulesExact | backend/app/routers/team.py:95-97 | the counted modules are exactly those some activity names |
| Team.ModulesDistinct | backend/app/routers/team.py:95-97 | each module is counted under one key |
| Team.AbsentModuleCountsZero | backend/app/routers/team.py:97 | a module no activity names counts zero |
| Team.CountsAddUp | backend/app/routers/team.py:93-97 | the module counts add up to the number of activities |
| Team.TotalIsSumOfCounts | backend/app/routers/team.py:91-97 | an employee's total actions equal the sum of their per-module counts |
| Team.SumAtLeastOne | backend/app/routers/team.py:93-97 | no module counts more than the total |
| Team.CountModules | backend/app/routers/team.py:95-97 | the counting loop computes the count of every module in first-seen key order |
| Team.CountStep | backend/app/routers/team.py:97 | one activity adds one to its module's count, adding the key when new |
| Team.ArgMax | backend/app/routers/team.py:99 | the chosen module has the largest count and is the first key with it, as Python's `max` picks |
| Team.MaxByCount | backend/app/routers/team.py:99 | the loop picks the most active module |
| Team.GetEmployeeInsights | backend/app/routers/team.py:85-99 | corrected: a non-founder gets 403; a founder gets the employee's total actions and most active module |
| Team.InsightsAsWritten | backend/app/routers/team.py:102-116 | as written: for a founder the handler fails with a 500 exactly when the employee has an activity or a stored row with both a session start and a last-activity time |
| Team.InsightsWithActivityFailAsWritten | backend/app/routers/team.py:115 | as written, any employee with a recorded activity makes the founder's request a 500 |
| Team.InsightsExtendsAsWritten | backend/app/routers/team.py:88-117 | where the handler as written answers, it answers what the corrected handler computes |
| Team.MostActiveIsMaximal | backend/app/routers/team.py:95-99 | with no activity the answer is "None"; otherwise it is a module some activity names, with a count no other module exceeds and between 1 and the total |
| Team.GetTeamActivity | backend/app/routers/team.py:151-156 | a non-founder gets 403; a founder gets the first fifty activities of the newest-first table, in that order |
| Accountability.InsightsStore.constructor | backend/app/models/sql/accountability.py:1-40 | a store with no goals over alerts with distinct ids is valid |
| Accountability.CreateTradingGoal | backend/app/routers/accountability.py:62-95 | an unknown goal type is a 400 that changes nothing; a valid one appends an active goal with the next id and the given threshold |
| Accountability.ActiveGoals | backend/app/routers/accountability.py:104-107 | the listing holds exactly the user's active goals |
| Accountability.CreatedGoalListed | backend/app/routers/accountability.py:83-107 | a newly created goal appears in its owner's active goals |
| Accountability.DailyLossGoals | backend/app/routers/accountability.py:136 | exactly the daily-loss goals, in goal order |
| Accountability.ProximityAlertsExact | backend/app/routers/accountability.py:132-144 | the entries are those of the daily-loss goals, one per goal and in goal order, each at 0% proximity; every entry belongs to a listed daily-loss goal and every such goal has its entry |
| Accountability.ProximityAlerts | backend/app/routers/accountability.py:135-144 | there are never more entries than goals |
| Accountability.OverallRiskLevel | backend/app/routers/accountability.py:146-151 | "high" exactly when some entry is above 80%, "moderate" exactly when none is but one is above 60%, otherwise "safe" |
| Accountability.GetRiskProximity | backend/app/routers/accountability.py:112-158 | the response counts the user's active goals, lists their proximity entries, has no daily P&L and carries the overall level |
| Accountability.ProximityAlwaysSafe | backend/app/routers/accountability.py:141-151 | with every proximity fixed at 0 the overall level is always "safe" |
| Accountability.FindAlert | backend/app/routers/accountability.py:188-191 | the lookup finds the user's alert with the id, or none exists |
| Accountability.FindGoal | backend/app/routers/accountability.py:242-245 | the lookup finds the user's goal with the id, or none exists |
| Accountability.AcknowledgeAlert | backend/app/routers/accountability.py:181-200 | a missing or foreign alert is a 404 that changes nothing; otherwise that alert is flagged and time-stamped |
| Accountability.AlertLookupStable | backend/app/routers/accountability.py:188-196 | changes that keep ids and owners keep every lookup |
| Accountability.AcknowledgeIdempotent | backend/app/routers/accountability.py:196-197 | acknowledging twice is acknowledging once at the later time, with the same flags |
| Accountability.DeleteTradingGoal | backend/app/routers/accountability.py:235-253 | a missing or foreign goal is a 404 that changes nothing; otherwise the goal is deactivated, not removed |
| Accountability.DeletedGoalHidden | backend/app/routers/accountability.py:242-250 | a deleted goal stays in the table deactivated and no longer appears among its owner's active goals |
| Support.BotReply | backend/app/routers/support.py:38-46 | on the lower-cased text, pricing words win over setup words, setup words over hand-off words, and anything else gets the fallback |
| Support.BotResponse | backend/app/routers/support.py:38-46 | the reply contains "notifying a support specialist" exactly when it is the hand-off reply |
| Support.BotIgnoresCase | backend/app/routers/support.py:39 | the bot answers a message and its lower-cased form alike |
| Support.HandOffPhraseOnlyInHandOff | backend/app/routers/support.py:41-46 | among the four replies only the hand-off one contains the escalation phrase |
| Support.PricingLacksPhrase | backend/app/routers/support.py:41 | the pricing reply does not contain the escalation phrase |
| Support.SetupLacksPhrase | backend/app/routers/support.py:43 | the setup reply does not contain the escalation phrase |
| Support.FallbackLacksPhrase | backend/app/routers/support.py:46 | the fallback reply does not contain the escalation phrase |
| Support.ConnectionManager.constructor | backend/app/routers/support.py:17-18 | a new manager holds no connections |
| Support.ConnectionManager.Connect | backend/app/routers/support.py:20-24 | the socket is appended to its chat's list, created when missing; other chats are unchanged |
| Support.ConnectionManager.Disconnect | backend/app/routers/support.py:26-28 | the first occurrence of the socket is removed from its chat's list; an unknown chat is a no-op and a socket missing from a known chat's list raises |
| Support.RemoveFirst | backend/app/routers/support.py:28 | removing one occurrence shortens the list by one and drops exactly one copy of the socket |
| Support.ConnectThenDisconnect | backend/app/routers/support.py:20-28 | connecting a new socket and then disconnecting it restores the chat's list |
| Support.SupportDesk.constructor | backend/app/models/sql/support.py:1-40 | an empty desk is valid |
| Support.FindChat | backend/app/routers/support.py:85 | the lookup finds the chat with the id, or none exists |
| Support.BroadcastSenderAsWritten | backend/app/routers/support.py:80 | the sender type broadcast as written is the frame's own key, with nothing when the key is absent |
| Support.MissingSenderCrashesAsWritten | backend/app/routers/support.py:60-80 | a frame without a sender type is saved as "USER", but the broadcast as written finds no key and raises |
| Support.BroadcastSender | backend/app/routers/support.py:60-82 | the corrected broadcast uses the saved row's sender type, agreeing with the written code whenever the key is present |
| Support.BotStep | backend/app/routers/support.py:85-101 | a chat in BOT state gets the bot's reply and moves to ACTIVE exactly on the hand-off reply; any other chat gets no reply and keeps its status |
| Support.BotTurn | backend/app/routers/support.py:87-92 | the reply and the hand-off decision are those of the bot step |
| Support.ActiveChatGetsNoBotReply | backend/app/routers/support.py:86 | a chat already handed to a human gets no bot reply |
| Support.HandOffHappensOnce | backend/app/routers/support.py:86-91 | once a message hands the chat off, later messages get no bot reply |
| Support.HandleMessage | backend/app/routers/support.py:53-110 | the message is saved with its defaulted sender type and broadcast; a staff message logs one activity; a chat in BOT state also gets the bot's reply saved and broadcast, with its status updated |
| Support.GetChats | backend/app/routers/support.py:115-119 | founders and support staff get every chat; anyone else gets 403 |
| Support.History | backend/app/routers/support.py:154-156 | the history holds exactly the chat's messages |
| Support.Priority | backend/app/routers/support.py:128 | a chat is PRIORITY exactly when `is_subscriber` is truthy, else STANDARD |
| Support.InitChat | backend/app/routers/support.py:121-152 | a new chat in BOT state with the next id and the derived priority is added with the greeting, followed by the high-volume note, which the staff check as written never suppresses |
| AdminSidebar.InGroup | src/components/admin/AdminSidebar.tsx:73 | the first filter keeps exactly the entries of the group |
| AdminSidebar.ShownOf | src/components/admin/AdminSidebar.tsx:74-80 | the second filter keeps exactly the entries the user may see |
| AdminSidebar.Visible | src/components/admin/AdminSidebar.tsx:72-80 | the one-pass reference keeps exactly the group's visible entries, in menu order |
| AdminSidebar.ChainIsOnePass | src/components/admin/AdminSidebar.tsx:72-80 | filtering by group and then by user is the one ordered pass with both conditions |
| AdminSidebar.SectionContents | src/components/admin/AdminSidebar.tsx:66-80 | a section lists exactly the group's entries the user may see, in menu order |
| AdminSidebar.NoUserNoItems | src/components/admin/AdminSidebar.tsx:75 | without a signed-in user nothing is listed |
| AdminSidebar.ShownOfAll | src/components/admin/AdminSidebar.tsx:74-80 | when every entry passes, the filter keeps the list as it is |
| AdminSidebar.FounderSeesWholeGroup | src/components/admin/AdminSidebar.tsx:76 | a founder sees every entry of every group |
| AdminSidebar.NonFounderVisibility | src/components/admin/AdminSidebar.tsx:77-79 | for anyone else founder-only entries never appear, a permission-tagged entry appears exactly when that permission is granted, and an untagged entry always appears |
| AdminSidebar.MenuTagsExclusive | src/components/admin/AdminSidebar.tsx:25-36 | no entry carries both a role and a permission tag, and every permission tag is a non-empty key |
| AdminSidebar.MenuGroupsListed | src/components/admin/AdminSidebar.tsx:25-42 | every menu entry belongs to one of the three group headings |
| AdminSidebar.SectionsCoverMenu | src/components/admin/AdminSidebar.tsx:42-80 | the three sections together list every entry the user may see, and only those |
| TeamManagement.StatusInfo | src/pages/admin/TeamManagement.tsx:211-223 | Suspended first, Inactive without a last activity, then Online under 5 minutes, Away under 30 and Offline after |
| TeamManagement.PresenceDecaysOverTime | src/pages/admin/TeamManagement.tsx:216-222 | with no new activity the label only moves from Online towards Offline as time passes |
| TeamManagement.Filtered | src/pages/admin/TeamManagement.tsx:206-209 | the search keeps exactly the employees whose name or e-mail contains the query, ignoring ASCII case, in list order |
| TeamManagement.SearchIgnoresQueryCase | src/pages/admin/TeamManagement.tsx:207-208 | a query and its lower-cased form find the same employees |
| TeamManagement.EmptyQueryKeepsNamed | src/pages/admin/TeamManagement.tsx:206-209 | the empty query keeps exactly the employees with a name or an e-mail |
| TeamManagement.BlankFormGrantsNothing | src/pages/admin/TeamManagement.tsx:59-94 | the new-employee form opens as a blank STAFF form with exactly the seven permissions, all off |
| TeamManagement.FindEmployee | src/pages/admin/TeamManagement.tsx:182 | the lookup returns the first employee with the id, or none exists |
| TeamManagement.WithPermissions | src/pages/admin/TeamManagement.tsx:188 | every row with the id takes the new permission map and the other rows are unchanged |
| TeamManagement.UnknownEmployeeIsNoOp | src/pages/admin/TeamManagement.tsx:182-183 | an unknown id changes nothing |
| TeamManagement.SwitchChangesOneKey | src/pages/admin/TeamManagement.tsx:185-188 | a switch changes only the named key of the targeted employee; other rows, keys and fields are unchanged |
| TeamManagement.SwitchIdempotent | src/pages/admin/TeamManagement.tsx:185-188 | switching the same key to the same value twice is switching it once |
| TeamManagement.TeamPage.constructor | src/pages/admin/TeamManagement.tsx:70-94 | the page opens with the loaded employees and the blank form |
| TeamManagement.TeamPage.UpdatePermissions | src/pages/admin/TeamManagement.tsx:181-193 | the list is replaced by the switched one only when the update succeeds, and the form is untouched |
| TeamManagement.TeamPage.ResetForm | src/pages/admin/TeamManagement.tsx:139-153 | after a creation the form is reset to the blank form and the list is untouched |
| Onboarding.Without | src/pages/Onboarding.tsx:79 | the filter keeps exactly the other markets, in order, and keeps a duplicate-free list duplicate-free |
| Onboarding.WithoutAbsent | src/pages/Onboarding.tsx:79 | filtering out a market that is not selected keeps the list |
| Onboarding.Toggle | src/pages/Onboarding.tsx:75-81 | a click selects an unselected market by appending it and deselects a selected one, touching no other market and creating no duplicate |
| Onboarding.ToggleTwiceRestores | src/pages/Onboarding.tsx:75-81 | clicking an unselected market twice restores the selection |
| Onboarding.ExperienceLevel | src/pages/Onboarding.tsx:87 | "5+ years" is Advanced, "Less than 1 year" is Beginner, anything else Intermediate |
| Onboarding.Recorded | src/pages/Onboarding.tsx:83-93 | the experience step records the years and the derived level, the style and goals steps their one field; other steps record nothing |
| Onboarding.ProgressBounds | src/pages/Onboarding.tsx:136 | the progress bar lies in (0, 100], grows with the step and is full on the last step |
| Onboarding.Wizard.constructor | src/pages/Onboarding.tsx:50-61 | the wizard opens on the first step with the initial answers |
| Onboarding.Wizard.HandleSelect | src/pages/Onboarding.tsx:67-98 | nothing happens on the demographics step; the multi-select step toggles a market and stays; any other step records the choice and advances unless it is the last |
| Onboarding.Wizard.SubmitDemographics | src/pages/Onboarding.tsx:100-106 | the step advances exactly when both the date of birth and the country are filled in, and the answers are unchanged |
| Onboarding.Wizard.Continue | src/pages/Onboarding.tsx:244-248 | the Continue button of the multi-select step advances one step |

## Left out

- Floating point: money, volumes and percentages are exact `real`s. `round(..., 2)` in the session buckets and the float formatting of violation messages are not modelled, so a violation is a datatype value rather than its text.
- Intelligence.AccumulateSessions: the bucket profit is the exact sum; the two-decimal `round` the response applies is not modelled.
- Time: `datetime.utcnow()`, `func.now()` and `new Date()` are parameters, in whole seconds (milliseconds in the front end).
  - `datetime.fromisoformat` is not modelled: a text time field carries its parse result, None when it does not parse. Time zones are not modelled.
  - The UTC hour of the session tag is a parameter of `Risk.CheckRisk`.
- Trade and account dicts: every key the evaluator reads with `[...]` (ticket, symbol, type, volume, open price) is present, and the keys read with `.get` default as the source says. A `KeyError` on a malformed broker trade is not modelled.
- Foreign calls become parameters of the model:
  - The MetaApi credential check on connect is `credentialsValid`, and token decryption is an `Option` result.
  - Password hashing and verification are function parameters, and JWT decoding is reduced to the subject it yields.
  - Only the commits of `Risk.CheckRisk`, `Notifications.SendRiskAlert` and `Auth.GetCurrentUser` take a `commitOk` parameter for whether they succeed. Every other commit is assumed to succeed: registration and login in the auth router, and the commits of the brokers, team, accountability and support routers.
  - backend/app/core/crypto.py, the MetaApi connector and the mock bridge are not part of this model.
- Concurrency: `asyncio.gather`/`wait_for` in the dashboard become "each fetch succeeds or fails" (an `Option` per account). The fire-and-forget `asyncio.create_task` of the alert is reduced to the outcome of the call.
- Dashboard.DashboardOverview: covers the insights and onboarding blocks of the overview. The risk report is `Risk.CheckRisk`, and the connector's sync status is `BrokerBase`. The connection and fetch steps are foreign calls.
- Presets: the presets file `core/presets.json` is a map parameter of `Brokers.UpdateRiskSettings`. `get_presets`, which only reads that file, is not modelled. The preset's "description" key is treated as absent, since it names no setting.
- Brokers.UpdateRiskSettings: the submitted fields are the risk settings of `RiskSettingsUpdate`, compared with Python's `==` on numbers, booleans and None. Attribute names outside the settings are not modelled.
- Row ids and timestamps: ids come from a counter in each store, and `created_at`/`updated_at` columns are not modelled.
- Support, the message loop:
  - The WebSocket `broadcast` send loop and the one-second `asyncio.sleep` are left out. `Support.HandleMessage` returns the broadcasts it would send.
  - A frame without a "content" key, a `KeyError`, is not modelled.
  - `created_at` in the broadcast payload is not modelled.
- Support.InitChat: the staff-online check at backend/app/routers/support.py:144 calls `.get("role")` on each WebSocket, which looks the key up in the connection scope. The scope never holds "role", so the check finds no staff and the note is always added; the model adds it unconditionally, and a working staff-presence check is not modelled.
- Support.ConnectionManager.Disconnect: returns false where `list.remove` would raise `ValueError`, leaving the registry unchanged.
- Team.GetEmployeeInsights: the corrected handler leaves out `time_spent` and `recent_activity_count`, which rest on `func.now()` date arithmetic. As written those lines raise NameError, and `Team.InsightsAsWritten` states when the request fails with a 500.
- TeamManagement.Filtered: case folding is ASCII-only (`Text.Lower`), while JavaScript's `toLowerCase` folds all of Unicode. So the query "JOSÉ" finds "José" in the page but not in the model.
- Support.BotReply: lower-cases ASCII letters only, as `Text.Lower` does. Every keyword it looks for is plain ASCII, and no other letter lowers into one of them in a way that completes a keyword, so it picks the reply the source picks.
- Team.GetTeamActivity: the `ORDER BY timestamp DESC` is the database's. The model receives the rows already in that order.
- Accountability: `get_risk_alerts`, `get_behavior_patterns` and `get_performance_insights` are plain filtered and ordered queries, and are not modelled.
- Auth: `login_for_access_token` returns the token's claims rather than a signed JWT. The `func.now()` stamps are the parameter `now`.
- The front end:
  - The API calls and toasts are left out. `TeamManagement.TeamPage.UpdatePermissions` takes whether the update succeeded as `accepted`.
  - Delete, suspension toggle and create re-fetch the list from the server and are not modelled beyond the backend routers.
  - The 300 ms delay before the wizard advances, and the wizard's final submission, are not modelled.
  - TypeScript truthiness of `user.permissions?.[p]` is reduced to a boolean map.

## Findings

| source | as written | input that shows it | evidently intended | confidence | as-written member | corrected member |
|---|---|---|---|---|---|---|
| backend/app/engine/risk.py:164-170 | `send_risk_alert` is called with `only_email=`, a keyword argument its signature (backend/app/services/notifications.py:19-24) does not have. The `TypeError` is caught at line 171, so no alert is ever scheduled from the evaluator. | a critical report for an account with rules and a store | schedule the alert with the status and violations, e-mail only for a non-pro owner | not executed | Risk.NotifyAsWritten, Risk.NotifyAsWrittenRejectsDueAlert | Risk.Notify, Risk.CheckRisk |
| backend/app/routers/brokers.py:175-218 | the commit happens only when the field diff is non-empty, so applying a preset with no other field is returned to the caller but never persisted | `{"preset_name": "FTMO"}` for an account whose `max_lot_size` is 10 while the preset sets 5 | persist the account whenever a preset is named or a field changed | not executed | Brokers.CommitsAsWritten, Brokers.PresetOnlyUpdateLostAsWritten | Brokers.Commits, Brokers.UpdateRiskSettings |
| backend/app/routers/dashboard.py:119-120 | the onboarding block reads `rule_preset` and `telegram_enabled`, which a `BrokerAccount` row does not have. The `AttributeError` becomes a 500 for every user with an active account. | any user with an active broker account calling the overview | read `preset_name` and `telegram_alerts_enabled` | not executed | Dashboard.OnboardingAsWritten, Dashboard.OverviewFailsForActiveAccountAsWritten | Dashboard.OnboardingFlags, Dashboard.DashboardOverview |
| backend/app/routers/support.py:80 | the broadcast reads `message_data["sender_type"]` without a default, while the saved row defaults it to "USER" at line 60, so a frame without the key is saved and then raises `KeyError` | the frame `{"content": "hi"}` | broadcast the same defaulted sender type as the saved row | not executed | Support.BroadcastSenderAsWritten, Support.MissingSenderCrashesAsWritten | Support.BroadcastSender, Support.HandleMessage |
| backend/app/routers/team.py:106-115 | the router never imports `func`, yet line 106 calls `func.now()` when the employee's row has both a session start and a last-activity time, and line 115 calls it for each activity. Either raises `NameError`, so the request fails with a 500. | a founder asks for the insights of an employee with one recorded activity | compare with the current time, imported from `sqlalchemy` | not executed | Team.InsightsAsWritten, Team.InsightsWithActivityFailAsWritten | Team.GetEmployeeInsights, Team.InsightsExtendsAsWritten |

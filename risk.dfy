/**
 * The risk evaluator of `RiskEngine` (backend/app/engine/risk.py): daily statistics,
 * threshold resolution, per-trade lot checks and session tags, reconciliation of the
 * live trades against the ticket-keyed trade table with one lazily created rule
 * snapshot per pass, daily-loss and drawdown grading, the predictive metrics and the
 * decision to raise a notification.
 */
module Risk {
  import opened Wrappers

  // ---------------------------------------------------------------------------
  // Data model
  // ---------------------------------------------------------------------------

  /** Report status; the order of severity is safe < warning < critical < breach. */
  datatype Status = Safe | Warning | Critical | Breach

  function Severity(s: Status): nat
  {
    match s
    case Safe => 0
    case Warning => 1
    case Critical => 2
    case Breach => 3
  }

  /** The more severe of two statuses. */
  function Worse(a: Status, b: Status): (r: Status)
    ensures Severity(r) >= Severity(a) && Severity(r) >= Severity(b)
    ensures r == a || r == b
  {
    if Severity(a) >= Severity(b) then a else b
  }

  /** The standardised account snapshot of a connector (only the fields the evaluator reads). */
  datatype AccountData = AccountData(balance: real, equity: real)

  /** A standardised open trade as the connectors deliver it. */
  datatype LiveTrade = LiveTrade(
    ticket: int, symbol: string, side: string, volume: real, openPrice: real, profit: real)

  datatype DailyStats = DailyStats(dailyProfit: real, dailyVolume: real, tradesCount: nat)

  /**
   * The rule columns of the `BrokerAccount` row passed as `account_model`, with the
   * owner's subscription tier ("free" when the account has no owner).
   */
  datatype RuleConfig = RuleConfig(
    accountId: int, userId: int,
    dailyLossLimitPct: real, maxDrawdownLimitPct: real, maxDailyTrades: int,
    maxLotSize: real, newsTradingAllowed: bool,
    ownerTier: string)

  /** A `RiskRuleSnapshot` row: a copy of the account's rules. */
  datatype RuleSnapshot = RuleSnapshot(
    brokerAccountId: int, dailyLossLimitPct: real, maxDrawdownLimitPct: real,
    maxDailyTrades: int, maxLotSize: real, newsTradingAllowed: bool)

  /** A persisted `Trade` row; `ruleSnapshotId` is the position of its snapshot in the snapshot table. */
  datatype StoredTrade = StoredTrade(
    ticket: int, userId: int, symbol: string, side: string, volume: real, openPrice: real,
    status: string, session: string, riskScore: int,
    ruleSnapshotId: Option<nat>, profit: Option<real>)

  /** The violation messages of a report; the numbers are the ones the message text prints. */
  datatype Violation =
    | ExcessiveLotSize(volume: real, maxLotSize: real)
    | DailyLossLimitBreached(loss: real, limit: real)
    | NearDailyLossLimit
    | ApproachingDailyLossLimit
    | MaxOverallLossBreached(drawdown: real)

  datatype Thresholds = Thresholds(dailyLossLimit: real, overallLimit: real, maxLotSize: real)

  datatype Metrics = Metrics(
    dailyLoss: real, dailyLimit: real, overallDrawdown: real, overallLimit: real,
    buffer: real, bufferPct: real, tradesToBreach: int)

  datatype RiskReport = RiskReport(status: Status, violations: seq<Violation>, metrics: Metrics)

  // ---------------------------------------------------------------------------
  // Default rules (RiskEngine.rules)
  // ---------------------------------------------------------------------------

  const DefaultMaxDailyLoss: real := 5000.0
  const DefaultMaxOverallLoss: real := 10000.0
  const DefaultMaxLotSize: real := 10.0
  const DefaultProhibitedNewsTrading: bool := true

  /** The value reported when no loss rate can be estimated, and the cap of every estimate. */
  const ManyTrades: int := 99

  // ---------------------------------------------------------------------------
  // Daily statistics
  // ---------------------------------------------------------------------------

  function SumProfit(ts: seq<LiveTrade>): real
  {
    if ts == [] then 0.0 else SumProfit(ts[..|ts| - 1]) + ts[|ts| - 1].profit
  }

  function SumVolume(ts: seq<LiveTrade>): real
  {
    if ts == [] then 0.0 else SumVolume(ts[..|ts| - 1]) + ts[|ts| - 1].volume
  }

  /** `get_daily_stats`: sums of profit and volume over the open trades, and their number. */
  method GetDailyStats(trades: seq<LiveTrade>) returns (stats: DailyStats)
    ensures stats == DailyStats(SumProfit(trades), SumVolume(trades), |trades|)
  {
    var dailyProfit, dailyVolume := 0.0, 0.0;
    var i := 0;
    while i < |trades|
      invariant 0 <= i <= |trades|
      invariant dailyProfit == SumProfit(trades[..i])
      invariant dailyVolume == SumVolume(trades[..i])
    {
      assert trades[..i + 1][..i] == trades[..i];
      dailyProfit := dailyProfit + trades[i].profit;
      dailyVolume := dailyVolume + trades[i].volume;
      i := i + 1;
    }
    assert trades[..|trades|] == trades;
    stats := DailyStats(dailyProfit, dailyVolume, |trades|);
  }

  /** Profit sums split over concatenation. */
  lemma {:induction false} SumProfitAppend(a: seq<LiveTrade>, b: seq<LiveTrade>)
    ensures SumProfit(a + b) == SumProfit(a) + SumProfit(b)
    decreases |b|
  {
    if b == [] {
      assert a + b == a;
    } else {
      assert (a + b)[..|a + b| - 1] == a + b[..|b| - 1];
      SumProfitAppend(a, b[..|b| - 1]);
    }
  }

  /** Trades that all have a non-negative profit sum to a non-negative daily profit. */
  lemma {:induction false} SumProfitNonNegative(ts: seq<LiveTrade>)
    requires forall k | 0 <= k < |ts| :: ts[k].profit >= 0.0
    ensures SumProfit(ts) >= 0.0
  {
    if ts != [] {
      SumProfitNonNegative(ts[..|ts| - 1]);
    }
  }

  // ---------------------------------------------------------------------------
  // Thresholds, session tag
  // ---------------------------------------------------------------------------

  /**
   * Threshold resolution: with an account config the limits are percentages of the
   * balance and the lot limit is the config's; without one, the fixed defaults.
   */
  function ResolveThresholds(account: AccountData, cfg: Option<RuleConfig>): (th: Thresholds)
    ensures cfg.Some? ==>
      && th.dailyLossLimit * 100.0 == account.balance * cfg.value.dailyLossLimitPct
      && th.overallLimit * 100.0 == account.balance * cfg.value.maxDrawdownLimitPct
      && th.maxLotSize == cfg.value.maxLotSize
    ensures cfg.None? ==> th == Thresholds(DefaultMaxDailyLoss, DefaultMaxOverallLoss, DefaultMaxLotSize)
  {
    match cfg
    case Some(c) =>
      Thresholds(account.balance * (c.dailyLossLimitPct / 100.0),
                 account.balance * (c.maxDrawdownLimitPct / 100.0),
                 c.maxLotSize)
    case None =>
      Thresholds(DefaultMaxDailyLoss, DefaultMaxOverallLoss, DefaultMaxLotSize)
  }

  /** Session tag by UTC hour: the London band is checked first, so 14 and 15 are London. */
  function SessionTag(hour: int): (tag: string)
    ensures tag == "London" <==> 8 <= hour < 16
    ensures tag == "New York" <==> 16 <= hour < 22
    ensures tag == "Asia" <==> hour < 8 || 22 <= hour
  {
    if 8 <= hour < 16 then "London"
    else if 14 <= hour < 22 then "New York"
    else "Asia"
  }

  // ---------------------------------------------------------------------------
  // Lot-size check
  // ---------------------------------------------------------------------------

  /** One "Excessive Lot Size" violation per oversized trade, in trade order. */
  function LotViolations(ts: seq<LiveTrade>, maxLot: real): seq<Violation>
  {
    if ts == [] then []
    else
      var t := ts[|ts| - 1];
      LotViolations(ts[..|ts| - 1], maxLot)
        + (if t.volume > maxLot then [ExcessiveLotSize(t.volume, maxLot)] else [])
  }

  /** Number of trades whose volume exceeds the lot limit. */
  function CountOversized(ts: seq<LiveTrade>, maxLot: real): nat
  {
    if ts == [] then 0
    else CountOversized(ts[..|ts| - 1], maxLot) + (if ts[|ts| - 1].volume > maxLot then 1 else 0)
  }

  /** The lot check emits exactly one violation per oversized trade, and each one is a lot violation. */
  lemma {:induction false} LotViolationsCount(ts: seq<LiveTrade>, maxLot: real)
    ensures |LotViolations(ts, maxLot)| == CountOversized(ts, maxLot)
    ensures forall k | 0 <= k < |LotViolations(ts, maxLot)| ::
      LotViolations(ts, maxLot)[k].ExcessiveLotSize? && LotViolations(ts, maxLot)[k].volume > maxLot
  {
    if ts != [] {
      LotViolationsCount(ts[..|ts| - 1], maxLot);
    }
  }

  /** Some trade is oversized exactly when the lot check emits a violation. */
  lemma {:induction false} LotViolationsNonEmpty(ts: seq<LiveTrade>, maxLot: real)
    ensures LotViolations(ts, maxLot) != [] <==> exists k | 0 <= k < |ts| :: ts[k].volume > maxLot
  {
    if ts != [] {
      var init := ts[..|ts| - 1];
      LotViolationsNonEmpty(init, maxLot);
      if exists k | 0 <= k < |init| :: init[k].volume > maxLot {
        var k :| 0 <= k < |init| && init[k].volume > maxLot;
        assert ts[k].volume > maxLot;
      }
      if exists k | 0 <= k < |ts| :: ts[k].volume > maxLot {
        var k :| 0 <= k < |ts| && ts[k].volume > maxLot;
        if k < |init| {
          assert init[k].volume > maxLot;
        }
      }
    }
  }

  // ---------------------------------------------------------------------------
  // Daily-loss and drawdown grading
  // ---------------------------------------------------------------------------

  /** The daily-loss band: the highest of breach (100%), critical (95%) and warning (80%) that the loss reaches. */
  function DailyStatus(loss: real, limit: real): (s: Status)
  {
    if loss >= limit then Breach
    else if loss >= limit * 0.95 then Critical
    else if loss >= limit * 0.8 then Warning
    else Safe
  }

  /** The single message of the matching daily band, or none. */
  function DailyViolations(loss: real, limit: real): (vs: seq<Violation>)
  {
    if loss >= limit then [DailyLossLimitBreached(loss, limit)]
    else if loss >= limit * 0.95 then [NearDailyLossLimit]
    else if loss >= limit * 0.8 then [ApproachingDailyLossLimit]
    else []
  }

  /** Overall drawdown: the shortfall of equity below balance, never negative. */
  function Drawdown(account: AccountData): (d: real)
    ensures d >= 0.0 && d >= account.balance - account.equity
    ensures d == 0.0 || d == account.balance - account.equity
  {
    if account.balance - account.equity > 0.0 then account.balance - account.equity else 0.0
  }

  /** Drawdown grading on its own: breach at the limit, critical from 90% of it. */
  function DrawdownStatus(drawdown: real, limit: real): (s: Status)
  {
    if drawdown >= limit then Breach
    else if drawdown >= limit * 0.9 then Critical
    else Safe
  }

  function DrawdownViolations(drawdown: real, limit: real): seq<Violation>
  {
    if drawdown >= limit then [MaxOverallLossBreached(drawdown)] else []
  }

  /** With a positive limit, the daily band only rises as the loss grows. */
  lemma DailyStatusMonotone(loss1: real, loss2: real, limit: real)
    requires loss1 <= loss2 && limit > 0.0
    ensures Severity(DailyStatus(loss1, limit)) <= Severity(DailyStatus(loss2, limit))
  {
  }

  /** Exactly one daily message is emitted when a band matches, and none otherwise; its kind matches the band. */
  lemma DailyBandMessage(loss: real, limit: real)
    ensures |DailyViolations(loss, limit)| == (if DailyStatus(loss, limit) == Safe then 0 else 1)
    ensures DailyStatus(loss, limit) == Breach <==> DailyViolations(loss, limit) == [DailyLossLimitBreached(loss, limit)]
    ensures DailyStatus(loss, limit) == Critical <==> DailyViolations(loss, limit) == [NearDailyLossLimit]
    ensures DailyStatus(loss, limit) == Warning <==> DailyViolations(loss, limit) == [ApproachingDailyLossLimit]
  {
  }

  // ---------------------------------------------------------------------------
  // Predictive metrics
  // ---------------------------------------------------------------------------

  /** Average loss per counted trade; zero when there are no trades or no loss. */
  function AvgLossPerTrade(loss: real, tradesCount: nat): (avg: real)
    ensures avg >= 0.0
    ensures avg > 0.0 <==> tradesCount > 0 && loss > 0.0
    ensures avg > 0.0 ==> avg * tradesCount as real == loss
  {
    if tradesCount > 0 && loss > 0.0 then loss / tradesCount as real else 0.0
  }

  /** Room left before the daily limit, never negative. */
  function Buffer(limit: real, loss: real): (b: real)
    ensures b >= 0.0 && b >= limit - loss
    ensures b == 0.0 || b == limit - loss
  {
    if limit - loss > 0.0 then limit - loss else 0.0
  }

  /** The buffer as a percentage of the daily limit; zero when the limit is not positive. */
  function BufferPct(buffer: real, limit: real): (pct: real)
    requires buffer >= 0.0
    ensures pct >= 0.0
    ensures limit <= 0.0 ==> pct == 0.0
    ensures limit > 0.0 ==> pct * limit == buffer * 100.0
  {
    if limit > 0.0 then (buffer / limit) * 100.0 else 0.0
  }

  /** `int(buffer / avg)` when a loss rate exists, else 99, then capped at 99. */
  function TradesToBreach(buffer: real, avg: real): (n: int)
    requires buffer >= 0.0 && avg >= 0.0
    ensures 0 <= n <= ManyTrades
    ensures avg == 0.0 ==> n == ManyTrades
    ensures avg > 0.0 && n < ManyTrades ==> n as real * avg <= buffer < (n + 1) as real * avg
  {
    if avg > 0.0 then
      FloorDivBounds(buffer, avg);
      var estimate := (buffer / avg).Floor;
      if estimate < ManyTrades then estimate else ManyTrades
    else ManyTrades
  }

  /** `int(b / a)` for non-negative operands is the largest whole number of `a`s that fit in `b`. */
  lemma FloorDivBounds(b: real, a: real)
    requires b >= 0.0 && a > 0.0
    ensures (b / a).Floor >= 0
    ensures (b / a).Floor as real * a <= b < ((b / a).Floor + 1) as real * a
  {
    var q := b / a;
    var f := q.Floor;
    assert q * a == b;
    assert f as real <= q < f as real + 1.0;
    assert f as real * a <= q * a;
    var r := (f + 1) as real;
    assert r == f as real + 1.0 && r > q;
    PositiveProduct(r - q, a);
    assert (r - q) * a == r * a - q * a;
    assert b < r * a;
  }

  lemma PositiveProduct(x: real, y: real)
    requires x > 0.0 && y > 0.0
    ensures x * y > 0.0
  {
  }

  function ReportMetrics(account: AccountData, stats: DailyStats, th: Thresholds): (m: Metrics)
  {
    var loss := -stats.dailyProfit;
    var buffer := Buffer(th.dailyLossLimit, loss);
    Metrics(loss, th.dailyLossLimit, Drawdown(account), th.overallLimit,
            buffer, BufferPct(buffer, th.dailyLossLimit),
            TradesToBreach(buffer, AvgLossPerTrade(loss, stats.tradesCount)))
  }

  // ---------------------------------------------------------------------------
  // The report as the source computes it, stated as independent gradings
  // ---------------------------------------------------------------------------

  /**
   * The report of `check_risk`: lot violations (only when a store is present), then the
   * daily message, then the drawdown message. The status is the worst of the three
   * gradings, which is what the source's sequence of assignments amounts to.
   */
  function Evaluate(account: AccountData, stats: DailyStats, trades: seq<LiveTrade>,
                    hasStore: bool, cfg: Option<RuleConfig>): RiskReport
  {
    var th := ResolveThresholds(account, cfg);
    var lot := if hasStore then LotViolations(trades, th.maxLotSize) else [];
    var loss := -stats.dailyProfit;
    var drawdown := Drawdown(account);
    var status := Worse(Worse(if lot != [] then Warning else Safe, DailyStatus(loss, th.dailyLossLimit)),
                        DrawdownStatus(drawdown, th.overallLimit));
    RiskReport(status,
               lot + DailyViolations(loss, th.dailyLossLimit) + DrawdownViolations(drawdown, th.overallLimit),
               ReportMetrics(account, stats, th))
  }

  // ---------------------------------------------------------------------------
  // Reconciliation with the trade table
  // ---------------------------------------------------------------------------

  /** The writes of one pass: the refreshed rows, the pending inserts and the lazily created snapshot. */
  datatype Pass = Pass(rows: map<int, StoredTrade>, inserts: seq<StoredTrade>, snapshot: Option<RuleSnapshot>)

  function SnapshotOf(c: RuleConfig): RuleSnapshot
  {
    RuleSnapshot(c.accountId, c.dailyLossLimitPct, c.maxDrawdownLimitPct,
                 c.maxDailyTrades, c.maxLotSize, c.newsTradingAllowed)
  }

  /** The row inserted for an unseen ticket: open, tagged, base risk score 75, no profit yet. */
  function NewRecord(t: LiveTrade, cfg: Option<RuleConfig>, session: string, link: Option<nat>): StoredTrade
  {
    StoredTrade(t.ticket, if cfg.Some? then cfg.value.userId else 1, t.symbol, t.side,
                t.volume, t.openPrice, "OPEN", session, 75, link, None)
  }

  /** The update of a seen row: its profit, and risk score 30 if oversized, else 90. */
  function Refresh(row: StoredTrade, t: LiveTrade, maxLot: real): StoredTrade
  {
    row.(profit := Some(t.profit), riskScore := if t.volume > maxLot then 30 else 90)
  }

  /**
   * One iteration of the persistence loop. Whether a ticket is seen is decided against
   * the committed table: the session does not autoflush, so pending inserts are invisible
   * to the query.
   */
  function ReconcileStep(committed: map<int, StoredTrade>, p: Pass, t: LiveTrade, maxLot: real,
                         cfg: Option<RuleConfig>, session: string, nextId: nat): (q: Pass)
    requires p.rows.Keys == committed.Keys
    ensures q.rows.Keys == committed.Keys
  {
    if t.ticket in committed then
      Pass(p.rows[t.ticket := Refresh(p.rows[t.ticket], t, maxLot)], p.inserts, p.snapshot)
    else
      var snap := if p.snapshot.None? && cfg.Some? then Some(SnapshotOf(cfg.value)) else p.snapshot;
      Pass(p.rows, p.inserts + [NewRecord(t, cfg, session, if snap.Some? then Some(nextId) else None)], snap)
  }

  /** The pass over a list of trades, from the committed table; `nextId` is the id a new snapshot gets. */
  function Reconcile(committed: map<int, StoredTrade>, ts: seq<LiveTrade>, maxLot: real,
                     cfg: Option<RuleConfig>, session: string, nextId: nat): (p: Pass)
    ensures p.rows.Keys == committed.Keys
  {
    if ts == [] then Pass(committed, [], None)
    else
      ReconcileStep(committed, Reconcile(committed, ts[..|ts| - 1], maxLot, cfg, session, nextId),
                    ts[|ts| - 1], maxLot, cfg, session, nextId)
  }

  /** The trades whose ticket the committed table does not hold, in order. */
  function Unseen(committed: map<int, StoredTrade>, ts: seq<LiveTrade>): seq<LiveTrade>
  {
    if ts == [] then []
    else Unseen(committed, ts[..|ts| - 1]) + (if ts[|ts| - 1].ticket in committed then [] else [ts[|ts| - 1]])
  }

  /** The last trade in the list that carries ticket `k`. */
  function LastWithTicket(ts: seq<LiveTrade>, k: int): Option<LiveTrade>
  {
    if ts == [] then None
    else if ts[|ts| - 1].ticket == k then Some(ts[|ts| - 1])
    else LastWithTicket(ts[..|ts| - 1], k)
  }

  /**
   * Seen tickets: a committed row is refreshed from the last live trade with its ticket
   * and is otherwise untouched; rows whose ticket is not in the list keep their values.
   */
  lemma {:induction false} ReconcileSeenRows(committed: map<int, StoredTrade>, ts: seq<LiveTrade>, maxLot: real,
                                             cfg: Option<RuleConfig>, session: string, nextId: nat)
    ensures forall k | k in committed ::
      Reconcile(committed, ts, maxLot, cfg, session, nextId).rows[k] ==
        match LastWithTicket(ts, k)
        case None => committed[k]
        case Some(t) => Refresh(committed[k], t, maxLot)
  {
    if ts != [] {
      ReconcileSeenRows(committed, ts[..|ts| - 1], maxLot, cfg, session, nextId);
    }
  }

  /**
   * Unseen tickets: one insert per unseen trade, in order, each with risk score 75 and
   * linked to the pass's snapshot exactly when an account config exists.
   */
  lemma {:induction false} ReconcileInserts(committed: map<int, StoredTrade>, ts: seq<LiveTrade>, maxLot: real,
                                            cfg: Option<RuleConfig>, session: string, nextId: nat)
    ensures var p := Reconcile(committed, ts, maxLot, cfg, session, nextId);
      var u := Unseen(committed, ts);
      && |p.inserts| == |u|
      && forall k | 0 <= k < |u| ::
           p.inserts[k] == NewRecord(u[k], cfg, session, if cfg.Some? then Some(nextId) else None)
    ensures var p := Reconcile(committed, ts, maxLot, cfg, session, nextId);
      p.snapshot == if cfg.Some? && Unseen(committed, ts) != [] then Some(SnapshotOf(cfg.value)) else None
  {
    if ts != [] {
      ReconcileInserts(committed, ts[..|ts| - 1], maxLot, cfg, session, nextId);
    }
  }

  /** Every unseen trade's ticket is absent from the committed table and comes from the list. */
  lemma {:induction false} UnseenTickets(committed: map<int, StoredTrade>, ts: seq<LiveTrade>)
    ensures forall k | 0 <= k < |Unseen(committed, ts)| ::
      Unseen(committed, ts)[k].ticket !in committed && Unseen(committed, ts)[k] in ts
  {
    if ts != [] {
      UnseenTickets(committed, ts[..|ts| - 1]);
    }
  }

  /** The rule snapshot a seen row links to is never changed by a pass (the rules at first sight stay). */
  lemma SnapshotLinkStable(committed: map<int, StoredTrade>, ts: seq<LiveTrade>, maxLot: real,
                           cfg: Option<RuleConfig>, session: string, nextId: nat, k: int)
    requires k in committed
    ensures var row := Reconcile(committed, ts, maxLot, cfg, session, nextId).rows[k];
      row.ruleSnapshotId == committed[k].ruleSnapshotId && row.ticket == committed[k].ticket
      && row.session == committed[k].session
  {
    ReconcileSeenRows(committed, ts, maxLot, cfg, session, nextId);
  }

  // ---------------------------------------------------------------------------
  // Commit
  // ---------------------------------------------------------------------------

  predicate DistinctTickets(rs: seq<StoredTrade>)
  {
    forall i, j | 0 <= i < j < |rs| :: rs[i].ticket != rs[j].ticket
  }

  /** The table after the pending inserts are written. */
  function AddRows(rows: map<int, StoredTrade>, ins: seq<StoredTrade>): map<int, StoredTrade>
    decreases |ins|
  {
    if ins == [] then rows else AddRows(rows[ins[0].ticket := ins[0]], ins[1..])
  }

  /** The pending inserts add their tickets as keys. */
  lemma {:induction false} AddRowsKeys(rows: map<int, StoredTrade>, ins: seq<StoredTrade>)
    ensures AddRows(rows, ins).Keys == rows.Keys + set r | r in ins :: r.ticket
    decreases |ins|
  {
    if ins != [] {
      var rest := ins[1..];
      AddRowsKeys(rows[ins[0].ticket := ins[0]], rest);
      assert ins == [ins[0]] + rest;
      assert (set r | r in ins :: r.ticket) == {ins[0].ticket} + set r | r in rest :: r.ticket;
    }
  }

  /** A ticket no insert carries keeps its row, or its absence. */
  lemma {:induction false} AddRowsOther(rows: map<int, StoredTrade>, ins: seq<StoredTrade>, t: int)
    requires forall k | 0 <= k < |ins| :: ins[k].ticket != t
    ensures t in AddRows(rows, ins) <==> t in rows
    ensures t in rows ==> AddRows(rows, ins)[t] == rows[t]
    decreases |ins|
  {
    if ins != [] {
      var rest := ins[1..];
      assert forall k | 0 <= k < |rest| :: rest[k] == ins[k + 1];
      AddRowsOther(rows[ins[0].ticket := ins[0]], rest, t);
    }
  }

  /** With distinct tickets, every insert is the row stored under its ticket. */
  lemma {:induction false} AddRowsInserted(rows: map<int, StoredTrade>, ins: seq<StoredTrade>, k: nat)
    requires DistinctTickets(ins) && k < |ins|
    ensures ins[k].ticket in AddRows(rows, ins) && AddRows(rows, ins)[ins[k].ticket] == ins[k]
    decreases |ins|
  {
    var rest := ins[1..];
    var rows' := rows[ins[0].ticket := ins[0]];
    assert forall j | 0 <= j < |rest| :: rest[j] == ins[j + 1];
    if k == 0 {
      AddRowsOther(rows', rest, ins[0].ticket);
    } else {
      assert DistinctTickets(rest);
      AddRowsInserted(rows', rest, k - 1);
    }
  }

  lemma AddRowsContents(rows: map<int, StoredTrade>, ins: seq<StoredTrade>)
    requires DistinctTickets(ins)
    ensures AddRows(rows, ins).Keys == rows.Keys + set r | r in ins :: r.ticket
    ensures forall k | 0 <= k < |ins| :: AddRows(rows, ins)[ins[k].ticket] == ins[k]
    ensures forall t | t in rows && (forall k | 0 <= k < |ins| :: ins[k].ticket != t) ::
      AddRows(rows, ins)[t] == rows[t]
  {
    AddRowsKeys(rows, ins);
    forall k | 0 <= k < |ins| ensures AddRows(rows, ins)[ins[k].ticket] == ins[k] {
      AddRowsInserted(rows, ins, k);
    }
    forall t | t in rows && (forall k | 0 <= k < |ins| :: ins[k].ticket != t)
      ensures AddRows(rows, ins)[t] == rows[t]
    {
      AddRowsOther(rows, ins, t);
    }
  }

  predicate DistinctLiveTickets(ts: seq<LiveTrade>)
  {
    forall i, j | 0 <= i < j < |ts| :: ts[i].ticket != ts[j].ticket
  }

  /**
   * The commit's uniqueness check passes exactly when the unseen trades carry distinct
   * tickets: an unseen ticket listed twice is inserted twice and the pass is rolled back.
   */
  lemma CommitUniqueIffUnseenDistinct(committed: map<int, StoredTrade>, ts: seq<LiveTrade>, maxLot: real,
                                      cfg: Option<RuleConfig>, session: string, nextId: nat)
    ensures DistinctTickets(Reconcile(committed, ts, maxLot, cfg, session, nextId).inserts)
        <==> DistinctLiveTickets(Unseen(committed, ts))
  {
    ReconcileInserts(committed, ts, maxLot, cfg, session, nextId);
  }

  /** Two live trades with one new ticket: the pass inserts it twice, so the commit cannot succeed. */
  lemma ExampleDuplicateNewTicket(t: LiveTrade, maxLot: real, cfg: Option<RuleConfig>, session: string)
    ensures !DistinctTickets(Reconcile(map[], [t, t], maxLot, cfg, session, 0).inserts)
  {
    CommitUniqueIffUnseenDistinct(map[], [t, t], maxLot, cfg, session, 0);
    assert [t, t][..1] == [t];
    assert [t][..0] == [];
    assert Unseen(map[], [t]) == [t];
    assert Unseen(map[], [t, t]) == [t, t];
  }

  /** The ticket-keyed trade table and the rule snapshot table. */
  class TradeStore {
    var trades: map<int, StoredTrade>
    var snapshots: seq<RuleSnapshot>

    /** Rows are keyed by their own ticket and link only to snapshots that exist. */
    ghost predicate Valid()
      reads this
    {
      && (forall k | k in trades :: trades[k].ticket == k)
      && (forall k | k in trades && trades[k].ruleSnapshotId.Some? :: trades[k].ruleSnapshotId.value < |snapshots|)
    }

    constructor ()
      ensures Valid() && trades == map[] && snapshots == []
    {
      trades := map[];
      snapshots := [];
    }
  }

  // ---------------------------------------------------------------------------
  // Notification decision
  // ---------------------------------------------------------------------------

  /** What the evaluator's call into the notification service amounts to. */
  datatype NotifyOutcome =
    | NotAttempted
    | CallRejected            // the call raised and the evaluator swallowed the error
    | Scheduled(status: Status, violations: seq<Violation>, emailOnly: bool)

  /** The keyword arguments the evaluator passes to `send_risk_alert`. */
  const PassedKeywords: set<string> := {"only_email"}

  /** The parameters `send_risk_alert` declares as written. */
  const SendRiskAlertParamsAsWritten: set<string> := {"db", "account", "status", "violations"}

  /** The parameters once `send_risk_alert` takes the email-only flag. */
  const SendRiskAlertParams: set<string> := {"db", "account", "status", "violations", "only_email"}

  /** A notification is due with a store, an account config and a critical or breach status. */
  predicate NotificationDue(hasStore: bool, cfg: Option<RuleConfig>, status: Status)
  {
    hasStore && cfg.Some? && (status == Critical || status == Breach)
  }

  /** Calling a Python function with a keyword it does not declare raises before anything runs. */
  function CallWith(declared: set<string>, hasStore: bool, cfg: Option<RuleConfig>, status: Status,
                    violations: seq<Violation>): NotifyOutcome
  {
    if !NotificationDue(hasStore, cfg, status) then NotAttempted
    else if PassedKeywords <= declared then Scheduled(status, violations, cfg.value.ownerTier != "pro")
    else CallRejected
  }

  /** The call as written: the service does not declare `only_email`. */
  function NotifyAsWritten(hasStore: bool, cfg: Option<RuleConfig>, status: Status,
                           violations: seq<Violation>): (o: NotifyOutcome)
    ensures !o.Scheduled?
  {
    CallWith(SendRiskAlertParamsAsWritten, hasStore, cfg, status, violations)
  }

  /** A due alert is rejected when made as written: the evaluator never schedules one. */
  lemma NotifyAsWrittenRejectsDueAlert(hasStore: bool, cfg: Option<RuleConfig>, status: Status,
                                       violations: seq<Violation>)
    requires NotificationDue(hasStore, cfg, status)
    ensures NotifyAsWritten(hasStore, cfg, status, violations) == CallRejected
  {
    assert "only_email" !in SendRiskAlertParamsAsWritten;
  }

  /** The evident intent: a due alert is scheduled, email-only unless the owner is on the pro tier. */
  function Notify(hasStore: bool, cfg: Option<RuleConfig>, status: Status,
                  violations: seq<Violation>): (o: NotifyOutcome)
    ensures o.Scheduled? <==> NotificationDue(hasStore, cfg, status)
    ensures !o.Scheduled? ==> o == NotAttempted
    ensures o.Scheduled? ==> o == Scheduled(status, violations, cfg.value.ownerTier != "pro")
  {
    CallWith(SendRiskAlertParams, hasStore, cfg, status, violations)
  }

  // ---------------------------------------------------------------------------
  // check_risk
  // ---------------------------------------------------------------------------

  /**
   * `check_risk`. `store` is the database session (null when none is given), `hour` the
   * current UTC hour and `commitOk` whether the database accepts the commit; a commit
   * also fails when the pass inserts one ticket twice (the ticket column is unique).
   * A failed commit rolls back every write of the pass, and the report is the same.
   */
  method CheckRisk(account: AccountData, stats: DailyStats, trades: seq<LiveTrade>,
                   store: TradeStore?, cfg: Option<RuleConfig>, hour: int, commitOk: bool)
    returns (report: RiskReport, notify: NotifyOutcome)
    requires store != null ==> store.Valid()
    modifies store
    ensures report == Evaluate(account, stats, trades, store != null, cfg)
    ensures notify == Notify(store != null, cfg, report.status, report.violations)
    ensures store != null ==> store.Valid()
    ensures store != null ==>
      var p := Reconcile(old(store.trades), trades, ResolveThresholds(account, cfg).maxLotSize, cfg,
                         SessionTag(hour), old(|store.snapshots|));
      if commitOk && DistinctTickets(p.inserts) then
        && store.trades == AddRows(p.rows, p.inserts)
        && store.snapshots == old(store.snapshots) + (if p.snapshot.Some? then [p.snapshot.value] else [])
      else
        store.trades == old(store.trades) && store.snapshots == old(store.snapshots)
  {
    // 1. thresholds
    var th := ResolveThresholds(account, cfg);
    var violations: seq<Violation> := [];
    var status := Safe;

    // 2. persistence and validation
    if store != null {
      violations, status := PersistTrades(store, trades, th.maxLotSize, cfg, hour, commitOk);
    }

    // 3. daily loss
    var loss := -stats.dailyProfit;
    violations, status := GradeDailyLoss(violations, status, loss, th.dailyLossLimit);

    // 4. overall drawdown
    var drawdown := Drawdown(account);
    violations, status := GradeDrawdown(violations, status, drawdown, th.overallLimit);

    // 5. predictive estimates
    var avg := AvgLossPerTrade(loss, stats.tradesCount);
    var buffer := Buffer(th.dailyLossLimit, loss);
    var toBreach := TradesToBreach(buffer, avg);

    // 6. notification
    notify := Notify(store != null, cfg, status, violations);

    report := RiskReport(status, violations,
      Metrics(loss, th.dailyLossLimit, drawdown, th.overallLimit, buffer,
              BufferPct(buffer, th.dailyLossLimit), toBreach));
  }

  /** The daily-loss branch of `check_risk`: it runs after the lot check, so the status is at most warning. */
  method GradeDailyLoss(violations: seq<Violation>, status: Status, loss: real, limit: real)
    returns (violations': seq<Violation>, status': Status)
    requires status == Safe || status == Warning
    ensures violations' == violations + DailyViolations(loss, limit)
    ensures status' == Worse(status, DailyStatus(loss, limit))
  {
    violations', status' := violations, status;
    if loss >= limit {
      violations' := violations' + [DailyLossLimitBreached(loss, limit)];
      status' := Breach;
    } else if loss >= limit * 0.95 {
      violations' := violations' + [NearDailyLossLimit];
      status' := Critical;
    } else if loss >= limit * 0.8 {
      violations' := violations' + [ApproachingDailyLossLimit];
      status' := Warning;
    }
  }

  /** The drawdown branch of `check_risk`: a breach sets breach; the critical band never lowers a breach. */
  method GradeDrawdown(violations: seq<Violation>, status: Status, drawdown: real, limit: real)
    returns (violations': seq<Violation>, status': Status)
    ensures violations' == violations + DrawdownViolations(drawdown, limit)
    ensures status' == Worse(status, DrawdownStatus(drawdown, limit))
  {
    violations', status' := violations, status;
    if drawdown >= limit {
      violations' := violations' + [MaxOverallLossBreached(drawdown)];
      status' := Breach;
    } else if drawdown >= limit * 0.9 {
      if status' != Breach {
        status' := Critical;
      }
    }
  }

  /**
   * The loop of the persistence pass over the live trades: the pending rows, inserts and
   * snapshot, and the lot violations with the status they set.
   */
  method ReconcileLoop(committed: map<int, StoredTrade>, trades: seq<LiveTrade>, maxLot: real,
                       cfg: Option<RuleConfig>, hour: int, nextId: nat)
    returns (rows: map<int, StoredTrade>, inserts: seq<StoredTrade>, snapshot: Option<RuleSnapshot>,
             violations: seq<Violation>, status: Status)
    ensures Pass(rows, inserts, snapshot) == Reconcile(committed, trades, maxLot, cfg, SessionTag(hour), nextId)
    ensures violations == LotViolations(trades, maxLot)
    ensures status == if violations != [] then Warning else Safe
  {
    violations, status := [], Safe;
    rows := committed;
    inserts := [];
    snapshot := None;
    var i := 0;
    while i < |trades|
      invariant 0 <= i <= |trades|
      invariant Pass(rows, inserts, snapshot) == Reconcile(committed, trades[..i], maxLot, cfg, SessionTag(hour), nextId)
      invariant violations == LotViolations(trades[..i], maxLot)
      invariant status == if violations != [] then Warning else Safe
    {
      PassPrefixStep(committed, trades, i, maxLot, cfg, SessionTag(hour), nextId);
      ghost var before := Pass(rows, inserts, snapshot);
      var t := trades[i];
      if t.volume > maxLot {
        violations := violations + [ExcessiveLotSize(t.volume, maxLot)];
        status := Warning;
      }
      var sessionTag := SessionTag(hour);
      if t.ticket !in committed {
        if snapshot.None? && cfg.Some? {
          snapshot := Some(SnapshotOf(cfg.value));
        }
        var link := if snapshot.Some? then Some(nextId) else None;
        inserts := inserts + [NewRecord(t, cfg, sessionTag, link)];
      } else {
        rows := rows[t.ticket := Refresh(rows[t.ticket], t, maxLot)];
      }
      assert Pass(rows, inserts, snapshot) == ReconcileStep(committed, before, t, maxLot, cfg, SessionTag(hour), nextId);
      i := i + 1;
    }
    assert trades[..|trades|] == trades;
  }

  /**
   * The persistence loop of `check_risk` with its commit: lot violations in trade order,
   * the status they set, and the table written on a successful commit (or left as it was).
   */
  method PersistTrades(store: TradeStore, trades: seq<LiveTrade>, maxLot: real,
                       cfg: Option<RuleConfig>, hour: int, commitOk: bool)
    returns (violations: seq<Violation>, status: Status)
    requires store.Valid()
    modifies store
    ensures violations == LotViolations(trades, maxLot)
    ensures status == if violations != [] then Warning else Safe
    ensures store.Valid()
    ensures var p := Reconcile(old(store.trades), trades, maxLot, cfg, SessionTag(hour), old(|store.snapshots|));
      if commitOk && DistinctTickets(p.inserts) then
        && store.trades == AddRows(p.rows, p.inserts)
        && store.snapshots == old(store.snapshots) + (if p.snapshot.Some? then [p.snapshot.value] else [])
      else
        store.trades == old(store.trades) && store.snapshots == old(store.snapshots)
  {
    var committed := store.trades;
    var nextId := |store.snapshots|;
    var rows, inserts, snapshot;
    rows, inserts, snapshot, violations, status := ReconcileLoop(committed, trades, maxLot, cfg, hour, nextId);
    if commitOk && DistinctTickets(inserts) {
      var snaps := store.snapshots + (if snapshot.Some? then [snapshot.value] else []);
      assert Pass(rows, inserts, snapshot) == Reconcile(committed, trades, maxLot, cfg, SessionTag(hour), |store.snapshots|);
      var table := AddRows(rows, inserts);
      CommitKeepsValid(committed, store.snapshots, trades, maxLot, cfg, SessionTag(hour),
                       Pass(rows, inserts, snapshot), table, snaps);
      store.trades := table;
      store.snapshots := snaps;
    }
  }

  /** The pass and the lot violations over one more trade of the list. */
  lemma PassPrefixStep(committed: map<int, StoredTrade>, ts: seq<LiveTrade>, i: nat, maxLot: real,
                       cfg: Option<RuleConfig>, session: string, nextId: nat)
    requires i < |ts|
    ensures Reconcile(committed, ts[..i + 1], maxLot, cfg, session, nextId)
         == ReconcileStep(committed, Reconcile(committed, ts[..i], maxLot, cfg, session, nextId), ts[i],
                          maxLot, cfg, session, nextId)
    ensures LotViolations(ts[..i + 1], maxLot)
         == LotViolations(ts[..i], maxLot) + (if ts[i].volume > maxLot then [ExcessiveLotSize(ts[i].volume, maxLot)] else [])
  {
    assert ts[..i + 1][..i] == ts[..i] && ts[..i + 1][i] == ts[i];
  }

  /** A successful commit keeps the table keyed by ticket and every snapshot link valid. */
  lemma CommitKeepsValid(committed: map<int, StoredTrade>, snapshots: seq<RuleSnapshot>, ts: seq<LiveTrade>,
                         maxLot: real, cfg: Option<RuleConfig>, session: string, p: Pass,
                         table: map<int, StoredTrade>, snaps: seq<RuleSnapshot>)
    requires forall k | k in committed :: committed[k].ticket == k
    requires forall k | k in committed && committed[k].ruleSnapshotId.Some? :: committed[k].ruleSnapshotId.value < |snapshots|
    requires p == Reconcile(committed, ts, maxLot, cfg, session, |snapshots|)
    requires DistinctTickets(p.inserts)
    requires table == AddRows(p.rows, p.inserts)
    requires snaps == snapshots + (if p.snapshot.Some? then [p.snapshot.value] else [])
    ensures forall k | k in table :: table[k].ticket == k
    ensures forall k | k in table && table[k].ruleSnapshotId.Some? :: table[k].ruleSnapshotId.value < |snaps|
  {
    var u := Unseen(committed, ts);
    ReconcileSeenRows(committed, ts, maxLot, cfg, session, |snapshots|);
    ReconcileInserts(committed, ts, maxLot, cfg, session, |snapshots|);
    AddRowsKeys(p.rows, p.inserts);
    forall k | k in table
      ensures table[k].ticket == k
      ensures table[k].ruleSnapshotId.Some? ==> table[k].ruleSnapshotId.value < |snaps|
    {
      if j :| 0 <= j < |p.inserts| && p.inserts[j].ticket == k {
        AddRowsInserted(p.rows, p.inserts, j);
        assert p.inserts[j] == NewRecord(u[j], cfg, session, if cfg.Some? then Some(|snapshots|) else None);
      } else {
        AddRowsOther(p.rows, p.inserts, k);
        assert k in p.rows;
      }
    }
  }

  // ---------------------------------------------------------------------------
  // Properties of the report
  // ---------------------------------------------------------------------------

  /** The final status is always the worst of the three gradings, so a breach is never downgraded. */
  lemma BreachNeverDowngraded(account: AccountData, stats: DailyStats, trades: seq<LiveTrade>,
                              hasStore: bool, cfg: Option<RuleConfig>)
    ensures var th := ResolveThresholds(account, cfg);
      var r := Evaluate(account, stats, trades, hasStore, cfg);
      && (Drawdown(account) >= th.overallLimit ==> r.status == Breach)
      && (-stats.dailyProfit >= th.dailyLossLimit ==> r.status == Breach)
      && (Drawdown(account) >= th.overallLimit * 0.9 ==> Severity(r.status) >= Severity(Critical))
      && Severity(r.status) >= Severity(DailyStatus(-stats.dailyProfit, th.dailyLossLimit))
  {
  }

  /** With a store, any oversized trade makes the status at least warning. */
  lemma OversizedLotWarns(account: AccountData, stats: DailyStats, trades: seq<LiveTrade>,
                          cfg: Option<RuleConfig>, k: nat)
    requires k < |trades| && trades[k].volume > ResolveThresholds(account, cfg).maxLotSize
    ensures Severity(Evaluate(account, stats, trades, true, cfg).status) >= Severity(Warning)
    ensures ExcessiveLotSize(trades[k].volume, ResolveThresholds(account, cfg).maxLotSize)
              in Evaluate(account, stats, trades, true, cfg).violations
  {
    var maxLot := ResolveThresholds(account, cfg).maxLotSize;
    LotViolationsNonEmpty(trades, maxLot);
    LotViolationsContain(trades, maxLot, k);
  }

  lemma {:induction false} LotViolationsContain(ts: seq<LiveTrade>, maxLot: real, k: nat)
    requires k < |ts| && ts[k].volume > maxLot
    ensures ExcessiveLotSize(ts[k].volume, maxLot) in LotViolations(ts, maxLot)
  {
    if k < |ts| - 1 {
      LotViolationsContain(ts[..|ts| - 1], maxLot, k);
    }
  }

  /** Without a store no lot violation is reported, whatever the trades. */
  lemma NoStoreNoLotCheck(account: AccountData, stats: DailyStats, trades: seq<LiveTrade>, cfg: Option<RuleConfig>)
    ensures forall v | v in Evaluate(account, stats, trades, false, cfg).violations :: !v.ExcessiveLotSize?
  {
  }

  /** Bounds of the predictive metrics. */
  lemma MetricsBounds(account: AccountData, stats: DailyStats, trades: seq<LiveTrade>,
                      hasStore: bool, cfg: Option<RuleConfig>)
    ensures var m := Evaluate(account, stats, trades, hasStore, cfg).metrics;
      && m.buffer >= 0.0
      && m.overallDrawdown >= 0.0
      && 0 <= m.tradesToBreach <= 99
      && (m.dailyLimit <= 0.0 ==> m.bufferPct == 0.0)
      && (m.dailyLoss <= 0.0 || stats.tradesCount == 0 ==> m.tradesToBreach == 99)
      && (m.dailyLimit > 0.0 && m.dailyLoss >= 0.0 ==> 0.0 <= m.bufferPct <= 100.0)
  {
    var m := Evaluate(account, stats, trades, hasStore, cfg).metrics;
    if m.dailyLimit > 0.0 && m.dailyLoss >= 0.0 {
      assert m.buffer <= m.dailyLimit;
      BufferPctAtMostHundred(m.buffer, m.dailyLimit);
    }
  }

  lemma BufferPctAtMostHundred(buffer: real, limit: real)
    requires 0.0 <= buffer <= limit && limit > 0.0
    ensures BufferPct(buffer, limit) <= 100.0
  {
    assert buffer / limit <= 1.0;
  }

  /** With a positive daily limit, trades with non-negative profits raise no daily-loss message. */
  lemma ProfitableTradesNoDailyViolation(trades: seq<LiveTrade>, limit: real)
    requires forall k | 0 <= k < |trades| :: trades[k].profit >= 0.0
    requires limit > 0.0
    ensures DailyStatus(-SumProfit(trades), limit) == Safe
    ensures DailyViolations(-SumProfit(trades), limit) == []
  {
    SumProfitNonNegative(trades);
  }

  /** A zero daily limit (a zero balance with an account config) grades a zero loss as a breach. */
  lemma ZeroLimitGradesBreach()
    ensures DailyStatus(0.0, 0.0) == Breach
  {
  }

  // Worked examples: balance 100000 with a 5% daily limit.

  function ExampleConfig(): RuleConfig
  {
    RuleConfig(1, 1, 5.0, 10.0, 50, 10.0, true, "standard")
  }

  lemma ExampleWarningBand()
    ensures var r := Evaluate(AccountData(100000.0, 100000.0), DailyStats(-4000.0, 1.0, 1), [], false, Some(ExampleConfig()));
      r.status == Warning && r.metrics.dailyLimit == 5000.0 && r.metrics.buffer == 1000.0
  {
  }

  lemma ExampleCriticalAndBreachBands()
    ensures Evaluate(AccountData(100000.0, 100000.0), DailyStats(-4800.0, 1.0, 1), [], false, Some(ExampleConfig())).status == Critical
    ensures Evaluate(AccountData(100000.0, 100000.0), DailyStats(-5000.0, 1.0, 1), [], false, Some(ExampleConfig())).status == Breach
  {
  }
}

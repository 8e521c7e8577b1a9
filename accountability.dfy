/**
 * The insights and goals router (backend/app/routers/accountability.py): awareness-only
 * trading goals, the risk-proximity roll-up, and acknowledging alerts. Rows follow
 * backend/app/models/sql/accountability.py.
 */
module Accountability {
  import opened Wrappers
  import opened Seqs

  /** A `trading_goals` row. */
  datatype Goal = Goal(id: int, userId: int, goalType: string, thresholdValue: real,
                       thresholdUnit: Option<string>, isActive: bool, createdAt: int)

  /** A `risk_alerts` row, reduced to what the router reads and writes. */
  datatype RiskAlert = RiskAlert(id: int, userId: int, alertType: string, severity: string, message: string,
                                 isAcknowledged: bool, acknowledgedAt: Option<int>)

  /** The goal types a goal may have, in the order the error message lists them. */
  const ValidTypes: seq<string> := ["daily_loss_target", "max_position_size", "weekly_profit_target", "max_trades_per_day"]

  const InvalidGoalType: HttpError := HttpError(400,
    "Invalid goal type. Must be one of: ['daily_loss_target', 'max_position_size', 'weekly_profit_target', 'max_trades_per_day']")
  const GoalNotFound: HttpError := HttpError(404, "Goal not found")
  const AlertNotFound: HttpError := HttpError(404, "Alert not found")

  /** The two tables with the next goal key. */
  class InsightsStore {
    var goals: seq<Goal>
    var alerts: seq<RiskAlert>
    var nextGoalId: int

    ghost predicate Valid()
      reads this
    {
      (forall i, j | 0 <= i < j < |goals| :: goals[i].id != goals[j].id)
      && (forall i | 0 <= i < |goals| :: goals[i].id < nextGoalId)
      && forall i, j | 0 <= i < j < |alerts| :: alerts[i].id != alerts[j].id
    }

    constructor (alerts: seq<RiskAlert>)
      requires forall i, j | 0 <= i < j < |alerts| :: alerts[i].id != alerts[j].id
      ensures Valid() && goals == [] && this.alerts == alerts
    {
      goals := [];
      this.alerts := alerts;
      nextGoalId := 1;
    }
  }

  // ---------------------------------------------------------------------------
  // create_trading_goal / get_trading_goals
  // ---------------------------------------------------------------------------

  /** `create_trading_goal`; `now` stands for `datetime.utcnow()`. */
  method CreateTradingGoal(store: InsightsStore, userId: int, goalType: string, thresholdValue: real,
                           thresholdUnit: Option<string>, now: int)
    returns (r: Result<Goal>)
    requires store.Valid()
    modifies store
    ensures store.Valid() && store.alerts == old(store.alerts)
    ensures goalType !in ValidTypes ==> r == Err(InvalidGoalType) && store.goals == old(store.goals)
    ensures goalType in ValidTypes ==>
      r == Ok(Goal(old(store.nextGoalId), userId, goalType, thresholdValue, thresholdUnit, true, now))
      && store.goals == old(store.goals) + [r.value]
  {
    if goalType !in ValidTypes {
      return Err(InvalidGoalType);
    }
    var g := Goal(store.nextGoalId, userId, goalType, thresholdValue, thresholdUnit, true, now);
    store.goals := store.goals + [g];
    store.nextGoalId := store.nextGoalId + 1;
    r := Ok(g);
  }

  /** `get_trading_goals`: the caller's active goals, in table order. */
  function ActiveGoals(goals: seq<Goal>, userId: int): (r: seq<Goal>)
    ensures forall g :: g in r <==> g in goals && g.userId == userId && g.isActive
    ensures |r| <= |goals|
  {
    if |goals| == 0 then []
    else
      var last := goals[|goals| - 1];
      ActiveGoals(goals[..|goals| - 1], userId) + (if last.userId == userId && last.isActive then [last] else [])
  }

  /** A goal just created is listed by the next `get_trading_goals` of its owner. */
  lemma CreatedGoalListed(goals: seq<Goal>, g: Goal)
    requires g.isActive
    ensures g in ActiveGoals(goals + [g], g.userId)
  {
  }

  // ---------------------------------------------------------------------------
  // get_risk_proximity
  // ---------------------------------------------------------------------------

  /** One entry of `proximity_alerts`. */
  datatype ProximityAlert = ProximityAlert(goalId: int, goalType: string, threshold: real, current: real,
                                           proximityPct: real, status: string)

  datatype RiskProximity = RiskProximity(goalsTracked: nat, proximityAlerts: seq<ProximityAlert>,
                                         currentDailyPnl: Option<real>, overallRiskLevel: string)

  /** The entry for a daily-loss goal; current value and proximity are still fixed at zero. */
  function AlertFor(g: Goal): ProximityAlert
  {
    ProximityAlert(g.id, g.goalType, g.thresholdValue, 0.0, 0.0, "safe")
  }

  /** The daily-loss goals, in goal order. */
  function DailyLossGoals(goals: seq<Goal>): (r: seq<Goal>)
    ensures forall g :: g in r <==> g in goals && g.goalType == "daily_loss_target"
    ensures IsSubsequence(r, goals)
  {
    if |goals| == 0 then []
    else
      var last := goals[|goals| - 1];
      var rest := DailyLossGoals(goals[..|goals| - 1]);
      if last.goalType == "daily_loss_target" then
        assert (rest + [last])[..|rest|] == rest;
        rest + [last]
      else rest
  }

  /** The entries of the daily-loss goals, in goal order. */
  function ProximityAlerts(goals: seq<Goal>): (r: seq<ProximityAlert>)
    ensures |r| <= |goals|
  {
    if |goals| == 0 then []
    else
      var last := goals[|goals| - 1];
      ProximityAlerts(goals[..|goals| - 1]) + (if last.goalType == "daily_loss_target" then [AlertFor(last)] else [])
  }

  /**
   * The entries are those of the daily-loss goals, one per goal and in goal order: every
   * entry belongs to a listed daily-loss goal, at zero proximity, and every such goal has
   * its entry.
   */
  lemma {:induction false} ProximityAlertsExact(goals: seq<Goal>)
    ensures |ProximityAlerts(goals)| == |DailyLossGoals(goals)|
    ensures forall k | 0 <= k < |ProximityAlerts(goals)| :: ProximityAlerts(goals)[k] == AlertFor(DailyLossGoals(goals)[k])
    ensures forall a | a in ProximityAlerts(goals) ::
      exists g | g in goals && g.goalType == "daily_loss_target" :: a == AlertFor(g)
    ensures forall a | a in ProximityAlerts(goals) :: a.goalType == "daily_loss_target" && a.proximityPct == 0.0
    ensures forall g | g in goals && g.goalType == "daily_loss_target" :: AlertFor(g) in ProximityAlerts(goals)
  {
    if |goals| > 0 {
      var init := goals[..|goals| - 1];
      ProximityAlertsExact(init);
      assert goals == init + [goals[|goals| - 1]];
    }
    var r, d := ProximityAlerts(goals), DailyLossGoals(goals);
    forall a | a in r
      ensures exists g | g in goals && g.goalType == "daily_loss_target" :: a == AlertFor(g)
    {
      var k :| 0 <= k < |r| && r[k] == a;
      assert d[k] in d;
    }
    forall g | g in goals && g.goalType == "daily_loss_target"
      ensures AlertFor(g) in r
    {
      assert g in d;
      var k :| 0 <= k < |d| && d[k] == g;
      assert r[k] == AlertFor(g);
    }
  }

  predicate AnyAbove(alerts: seq<ProximityAlert>, bound: real)
  {
    exists a | a in alerts :: a.proximityPct > bound
  }

  /** The level of the roll-up: "high" above 80, "moderate" above 60, otherwise "safe". */
  function OverallRiskLevel(alerts: seq<ProximityAlert>): (level: string)
    ensures level == "high" <==> AnyAbove(alerts, 80.0)
    ensures level == "moderate" <==> !AnyAbove(alerts, 80.0) && AnyAbove(alerts, 60.0)
    ensures level == "safe" <==> !AnyAbove(alerts, 60.0)
  {
    if AnyAbove(alerts, 80.0) then "high"
    else if AnyAbove(alerts, 60.0) then "moderate"
    else "safe"
  }

  /** `get_risk_proximity`, with the alert loop as the source writes it. */
  method GetRiskProximity(store: InsightsStore, userId: int) returns (r: RiskProximity)
    ensures var goals := ActiveGoals(store.goals, userId);
      r == RiskProximity(|goals|, ProximityAlerts(goals), None, OverallRiskLevel(ProximityAlerts(goals)))
  {
    var goals := ActiveGoals(store.goals, userId);
    var alerts: seq<ProximityAlert> := [];
    var i := 0;
    while i < |goals|
      invariant 0 <= i <= |goals| && alerts == ProximityAlerts(goals[..i])
    {
      assert goals[..i + 1][..i] == goals[..i] && goals[..i + 1][i] == goals[i];
      if goals[i].goalType == "daily_loss_target" {
        alerts := alerts + [AlertFor(goals[i])];
      }
      i := i + 1;
    }
    assert goals[..i] == goals;
    var level := "safe";
    if AnyAbove(alerts, 80.0) {
      level := "high";
    } else if AnyAbove(alerts, 60.0) {
      level := "moderate";
    }
    r := RiskProximity(|goals|, alerts, None, level);
  }

  /** With proximity fixed at zero the roll-up is always "safe", whatever the goals. */
  lemma ProximityAlwaysSafe(goals: seq<Goal>)
    ensures OverallRiskLevel(ProximityAlerts(goals)) == "safe"
  {
    ProximityAlertsExact(goals);
  }

  // ---------------------------------------------------------------------------
  // acknowledge_alert / delete_trading_goal
  // ---------------------------------------------------------------------------

  /** The alert with this id owned by this user (ids are unique). */
  function FindAlert(alerts: seq<RiskAlert>, alertId: int, userId: int): (r: Option<nat>)
    ensures r.Some? ==> r.value < |alerts| && alerts[r.value].id == alertId && alerts[r.value].userId == userId
    ensures r.None? <==> forall k | 0 <= k < |alerts| :: !(alerts[k].id == alertId && alerts[k].userId == userId)
  {
    if |alerts| == 0 then None
    else if alerts[|alerts| - 1].id == alertId && alerts[|alerts| - 1].userId == userId then Some(|alerts| - 1)
    else FindAlert(alerts[..|alerts| - 1], alertId, userId)
  }

  /** The goal with this id owned by this user (ids are unique). */
  function FindGoal(goals: seq<Goal>, goalId: int, userId: int): (r: Option<nat>)
    ensures r.Some? ==> r.value < |goals| && goals[r.value].id == goalId && goals[r.value].userId == userId
    ensures r.None? <==> forall k | 0 <= k < |goals| :: !(goals[k].id == goalId && goals[k].userId == userId)
  {
    if |goals| == 0 then None
    else if goals[|goals| - 1].id == goalId && goals[|goals| - 1].userId == userId then Some(|goals| - 1)
    else FindGoal(goals[..|goals| - 1], goalId, userId)
  }

  /** The alert table after acknowledging: the flag set and the time stamped, or unchanged when not found. */
  function Acknowledged(alerts: seq<RiskAlert>, alertId: int, userId: int, now: int): seq<RiskAlert>
  {
    var found := FindAlert(alerts, alertId, userId);
    if found.None? then alerts
    else alerts[found.value := alerts[found.value].(isAcknowledged := true, acknowledgedAt := Some(now))]
  }

  /** `acknowledge_alert`; `now` stands for `datetime.utcnow()`. Another user's alert is not found. */
  method AcknowledgeAlert(store: InsightsStore, userId: int, alertId: int, now: int) returns (r: Result<string>)
    requires store.Valid()
    modifies store
    ensures store.Valid() && store.goals == old(store.goals) && store.nextGoalId == old(store.nextGoalId)
    ensures store.alerts == Acknowledged(old(store.alerts), alertId, userId, now)
    ensures FindAlert(old(store.alerts), alertId, userId).None? <==> r == Err(AlertNotFound)
    ensures r.Ok? ==> r.value == "Alert acknowledged"
  {
    var found := FindAlert(store.alerts, alertId, userId);
    if found.None? {
      return Err(AlertNotFound);
    }
    var i := found.value;
    store.alerts := store.alerts[i := store.alerts[i].(isAcknowledged := true, acknowledgedAt := Some(now))];
    r := Ok("Alert acknowledged");
  }

  /** A lookup sees through a change that keeps every alert's id and owner. */
  lemma {:induction false} AlertLookupStable(a: seq<RiskAlert>, b: seq<RiskAlert>, alertId: int, userId: int)
    requires |a| == |b| && forall k | 0 <= k < |a| :: a[k].id == b[k].id && a[k].userId == b[k].userId
    ensures FindAlert(a, alertId, userId) == FindAlert(b, alertId, userId)
  {
    if |a| > 0 {
      AlertLookupStable(a[..|a| - 1], b[..|b| - 1], alertId, userId);
    }
  }

  /**
   * Acknowledging twice leaves the alert acknowledged, as once does; only the stamp moves
   * to the later time. Other alerts are untouched.
   */
  lemma AcknowledgeIdempotent(alerts: seq<RiskAlert>, alertId: int, userId: int, t1: int, t2: int)
    ensures var once := Acknowledged(alerts, alertId, userId, t1);
      var twice := Acknowledged(once, alertId, userId, t2);
      twice == Acknowledged(alerts, alertId, userId, t2)
      && (forall k | 0 <= k < |alerts| :: twice[k].isAcknowledged == once[k].isAcknowledged)
  {
    var once := Acknowledged(alerts, alertId, userId, t1);
    AlertLookupStable(alerts, once, alertId, userId);
  }

  /** The goal table after deactivating: the row stays with `is_active` false. */
  function Deactivated(goals: seq<Goal>, goalId: int, userId: int): seq<Goal>
  {
    var found := FindGoal(goals, goalId, userId);
    if found.None? then goals else goals[found.value := goals[found.value].(isActive := false)]
  }

  /** `delete_trading_goal`: a soft delete. */
  method DeleteTradingGoal(store: InsightsStore, userId: int, goalId: int) returns (r: Result<string>)
    requires store.Valid()
    modifies store
    ensures store.Valid() && store.alerts == old(store.alerts) && store.nextGoalId == old(store.nextGoalId)
    ensures store.goals == Deactivated(old(store.goals), goalId, userId)
    ensures FindGoal(old(store.goals), goalId, userId).None? <==> r == Err(GoalNotFound)
    ensures r.Ok? ==> r.value == "Goal deactivated"
  {
    var found := FindGoal(store.goals, goalId, userId);
    if found.None? {
      return Err(GoalNotFound);
    }
    var i := found.value;
    store.goals := store.goals[i := store.goals[i].(isActive := false)];
    r := Ok("Goal deactivated");
  }

  /**
   * A deleted goal keeps its row, with every field but `is_active`, and no longer appears
   * among the owner's active goals.
   */
  lemma DeletedGoalHidden(goals: seq<Goal>, goalId: int, userId: int)
    requires forall i, j | 0 <= i < j < |goals| :: goals[i].id != goals[j].id
    requires FindGoal(goals, goalId, userId).Some?
    ensures var after := Deactivated(goals, goalId, userId);
      var i := FindGoal(goals, goalId, userId).value;
      |after| == |goals| && after[i] == goals[i].(isActive := false)
      && forall g | g in ActiveGoals(after, userId) :: g.id != goalId
  {
    var after := Deactivated(goals, goalId, userId);
    var i := FindGoal(goals, goalId, userId).value;
    forall g | g in ActiveGoals(after, userId) ensures g.id != goalId {
      var k :| 0 <= k < |after| && after[k] == g;
      if k != i {
        assert after[k] == goals[k];
      }
    }
  }
}

/**
 * The broker-account endpoints (backend/app/routers/brokers.py): tier limits by
 * creation order in `get_brokers`, the checks and single-active rule of
 * `connect_broker`, and `update_risk_settings` with preset application, the per-field
 * change diff and its audit entry.
 */
module Brokers {
  import opened Wrappers

  // ---------------------------------------------------------------------------
  // Rule settings and Python equality
  // ---------------------------------------------------------------------------

  /** The five rule columns an update can name. */
  datatype Field = DailyLossLimitPct | MaxDrawdownLimitPct | MaxDailyTrades | MaxLotSize | NewsTradingAllowed

  /** The order in which the request model declares its fields (and `dict()` lists them). */
  const FieldOrder: seq<Field> := [DailyLossLimitPct, MaxDrawdownLimitPct, MaxDailyTrades, MaxLotSize, NewsTradingAllowed]

  const AllFields: set<Field> := {DailyLossLimitPct, MaxDrawdownLimitPct, MaxDailyTrades, MaxLotSize, NewsTradingAllowed}

  /** A column value: JSON null, a float, an int or a bool. */
  datatype Value = Null | Num(r: real) | Whole(i: int) | Flag(b: bool)

  /** The numeric reading Python gives ints, floats and bools when it compares them. */
  function Numeric(v: Value): Option<real>
  {
    match v
    case Null => None
    case Num(r) => Some(r)
    case Whole(i) => Some(i as real)
    case Flag(b) => Some(if b then 1.0 else 0.0)
  }

  /** Python's `==`: numbers compare by value across int, float and bool. */
  predicate PyEq(a: Value, b: Value)
  {
    a == b || (Numeric(a).Some? && Numeric(b).Some? && Numeric(a).value == Numeric(b).value)
  }

  lemma PyEqIsEquivalence(a: Value, b: Value, c: Value)
    ensures PyEq(a, a)
    ensures PyEq(a, b) ==> PyEq(b, a)
    ensures PyEq(a, b) && PyEq(b, c) ==> PyEq(a, c)
    ensures PyEq(Whole(5), Num(5.0)) && PyEq(Flag(true), Whole(1)) && !PyEq(Null, Num(0.0))
  {
  }

  type Settings = map<Field, Value>

  /** The `{old, new}` pair of one changed field. */
  datatype Change = Change(oldValue: Value, newValue: Value)

  datatype AuditEntry = AuditEntry(
    userId: int, brokerAccountId: int, action: string, category: string, details: map<Field, Change>)

  /** A `BrokerAccount` row; `isLimited` is the transient attribute `get_brokers` sets. */
  datatype BrokerAccount = BrokerAccount(
    id: int, userId: int, platform: string, provider: string, accountId: string, name: string,
    tokenEncrypted: string, isActive: bool, connectionStatus: string,
    telegramAlertsEnabled: bool, settings: Settings, presetName: Option<string>, isLimited: bool)

  /** The caller's id and tier limit. */
  datatype Caller = Caller(id: int, maxAccountsLimit: int)

  // ---------------------------------------------------------------------------
  // get_brokers
  // ---------------------------------------------------------------------------

  /** The caller's accounts in creation order (rows are stored in the order they were created). */
  function UserAccounts(accounts: seq<BrokerAccount>, userId: int): (r: seq<BrokerAccount>)
    ensures forall k | 0 <= k < |r| :: r[k].userId == userId && r[k] in accounts
    ensures forall a | a in accounts && a.userId == userId :: a in r
  {
    if accounts == [] then []
    else
      var init := UserAccounts(accounts[..|accounts| - 1], userId);
      var last := accounts[|accounts| - 1];
      assert forall a | a in accounts :: a in accounts[..|accounts| - 1] || a == last;
      init + (if last.userId == userId then [last] else [])
  }

  /** The loop over `enumerate(accounts)`: the account at position `i` is limited iff `i >= limit`. */
  method MarkLimited(accounts: seq<BrokerAccount>, limit: int) returns (r: seq<BrokerAccount>)
    ensures |r| == |accounts|
    ensures forall k | 0 <= k < |r| :: r[k] == accounts[k].(isLimited := k >= limit)
  {
    r := [];
    var i := 0;
    while i < |accounts|
      invariant 0 <= i <= |accounts| && |r| == i
      invariant forall k | 0 <= k < i :: r[k] == accounts[k].(isLimited := k >= limit)
    {
      r := r + [accounts[i].(isLimited := i >= limit)];
      i := i + 1;
    }
  }

  function CountUnlimited(r: seq<BrokerAccount>): nat
  {
    if r == [] then 0 else CountUnlimited(r[..|r| - 1]) + (if r[|r| - 1].isLimited then 0 else 1)
  }

  /**
   * The limited accounts are exactly a suffix: the first `min(n, max(limit, 0))`
   * accounts stay usable and every later one is limited.
   */
  lemma {:induction false} LimitedSuffix(r: seq<BrokerAccount>, limit: int)
    requires forall k | 0 <= k < |r| :: r[k].isLimited == (k >= limit)
    ensures CountUnlimited(r) == if limit <= 0 then 0 else if limit < |r| then limit else |r|
    ensures forall a, b | 0 <= a < b < |r| :: r[a].isLimited ==> r[b].isLimited
  {
    if r != [] {
      LimitedSuffix(r[..|r| - 1], limit);
    }
  }

  /** `get_brokers`: the caller's accounts in creation order, marked against the tier limit. */
  method GetBrokers(accounts: seq<BrokerAccount>, caller: Caller) returns (r: seq<BrokerAccount>)
    ensures |r| == |UserAccounts(accounts, caller.id)|
    ensures forall k | 0 <= k < |r| ::
      r[k] == UserAccounts(accounts, caller.id)[k].(isLimited := k >= caller.maxAccountsLimit)
  {
    r := MarkLimited(UserAccounts(accounts, caller.id), caller.maxAccountsLimit);
  }

  // ---------------------------------------------------------------------------
  // The account table
  // ---------------------------------------------------------------------------

  /** Ids are distinct and below the next id; every row carries all five rule columns. */
  ghost predicate AccountsValid(accounts: seq<BrokerAccount>, nextId: int)
  {
    && (forall i, j | 0 <= i < j < |accounts| :: accounts[i].id != accounts[j].id)
    && (forall k | 0 <= k < |accounts| :: accounts[k].id < nextId)
    && (forall k | 0 <= k < |accounts| :: accounts[k].settings.Keys == AllFields)
  }

  /** Rewriting one row with the same id and a full set of rule columns keeps the table valid. */
  lemma RowUpdateKeepsValid(accounts: seq<BrokerAccount>, nextId: int, k: nat, row: BrokerAccount)
    requires AccountsValid(accounts, nextId) && k < |accounts|
    requires row.id == accounts[k].id && row.settings.Keys == AllFields
    ensures AccountsValid(accounts[k := row], nextId)
  {
    var after := accounts[k := row];
    assert forall j | 0 <= j < |after| :: after[j].id == accounts[j].id;
  }

  /** Deactivating a user's rows and appending a fresh full row with the next id keeps the table valid. */
  lemma ConnectKeepsValid(accounts: seq<BrokerAccount>, nextId: int, userId: int, row: BrokerAccount)
    requires AccountsValid(accounts, nextId)
    requires row.id == nextId && row.settings.Keys == AllFields
    ensures AccountsValid(Deactivate(accounts, userId) + [row], nextId + 1)
  {
    var after := Deactivate(accounts, userId) + [row];
    assert forall j | 0 <= j < |accounts| :: after[j].id == accounts[j].id && after[j].settings == accounts[j].settings;
  }

  class BrokerStore {
    var accounts: seq<BrokerAccount>
    var audit: seq<AuditEntry>
    var nextId: int

    /** Ids are distinct and below the next id; every row carries all five rule columns. */
    ghost predicate Valid()
      reads this
    {
      AccountsValid(accounts, nextId)
    }

    constructor ()
      ensures Valid() && accounts == [] && audit == [] && nextId == 1
    {
      accounts, audit, nextId := [], [], 1;
    }
  }

  // ---------------------------------------------------------------------------
  // connect_broker
  // ---------------------------------------------------------------------------

  datatype ConnectRequest = ConnectRequest(
    platform: string, provider: string, accountId: string, token: string, name: Option<string>,
    dailyLossLimitPct: real, maxDrawdownLimitPct: real)

  function CountOwned(accounts: seq<BrokerAccount>, userId: int): nat
  {
    if accounts == [] then 0
    else CountOwned(accounts[..|accounts| - 1], userId) + (if accounts[|accounts| - 1].userId == userId then 1 else 0)
  }

  /** The bulk update that deactivates every account of the user. */
  function Deactivate(accounts: seq<BrokerAccount>, userId: int): (r: seq<BrokerAccount>)
    ensures |r| == |accounts|
  {
    seq(|accounts|, k requires 0 <= k < |accounts| =>
      if accounts[k].userId == userId then accounts[k].(isActive := false) else accounts[k])
  }

  /** The display name: the given one when non-empty, else "<platform> - <account id>". */
  function DisplayName(req: ConnectRequest): (n: string)
    ensures req.name.Some? && req.name.value != "" ==> n == req.name.value
    ensures req.name.None? || req.name.value == "" ==> n == req.platform + " - " + req.accountId
  {
    if req.name.Some? && req.name.value != "" then req.name.value else req.platform + " - " + req.accountId
  }

  /** The column defaults of a new row with the request's two percentages. */
  function NewSettings(req: ConnectRequest): (s: Settings)
    ensures s.Keys == AllFields
  {
    map[DailyLossLimitPct := Num(req.dailyLossLimitPct), MaxDrawdownLimitPct := Num(req.maxDrawdownLimitPct),
        MaxDailyTrades := Whole(50), MaxLotSize := Num(10.0), NewsTradingAllowed := Flag(true)]
  }

  function NewAccount(id: int, caller: Caller, req: ConnectRequest, encrypted: string): BrokerAccount
  {
    BrokerAccount(id, caller.id, req.platform, req.provider, req.accountId, DisplayName(req), encrypted,
                  true, "connected", false, NewSettings(req), None, false)
  }

  /** The error that decides a connect, in the source's order; None when it goes through. */
  function ConnectError(count: nat, caller: Caller, req: ConnectRequest, credentialsValid: bool): (e: Option<int>)
    ensures e == Some(403) <==> count >= caller.maxAccountsLimit
    ensures e == Some(400) <==> count < caller.maxAccountsLimit && (req.provider != "metaapi" || !credentialsValid)
    ensures e.None? <==> count < caller.maxAccountsLimit && req.provider == "metaapi" && credentialsValid
  {
    if count >= caller.maxAccountsLimit then Some(403)
    else if req.provider != "metaapi" then Some(400)
    else if !credentialsValid then Some(400)
    else None
  }

  /**
   * `connect_broker`. `credentialsValid` is the outcome of the MetaApi dry-run connect
   * and `encrypted` the encrypted token; both are foreign calls.
   */
  method ConnectBroker(store: BrokerStore, caller: Caller, req: ConnectRequest, credentialsValid: bool, encrypted: string)
    returns (r: Result<BrokerAccount>)
    requires store.Valid()
    modifies store
    ensures store.Valid()
    ensures var e := ConnectError(CountOwned(old(store.accounts), caller.id), caller, req, credentialsValid);
      if e.Some? then
        && r.Err? && r.error.status == e.value
        && store.accounts == old(store.accounts) && store.nextId == old(store.nextId)
      else
        && r == Ok(NewAccount(old(store.nextId), caller, req, encrypted))
        && store.accounts == Deactivate(old(store.accounts), caller.id) + [r.value]
        && store.nextId == old(store.nextId) + 1
    ensures store.audit == old(store.audit)
  {
    var count := CountOwned(store.accounts, caller.id);
    if count >= caller.maxAccountsLimit {
      return Err(HttpError(403, "Account limit reached for your tier. Please upgrade to connect more accounts."));
    }
    if req.provider != "metaapi" {
      return Err(HttpError(400, "Only MetaApi provider is supported currently."));
    }
    if !credentialsValid {
      return Err(HttpError(400, "Failed to connect to MetaApi. Check credentials."));
    }
    var account := NewAccount(store.nextId, caller, req, encrypted);
    ConnectKeepsValid(store.accounts, store.nextId, caller.id, account);
    store.accounts := Deactivate(store.accounts, caller.id) + [account];
    store.nextId := store.nextId + 1;
    r := Ok(account);
  }

  /** After a successful connect the new account is the user's only active one, and other users' rows are untouched. */
  lemma ConnectLeavesOneActive(accounts: seq<BrokerAccount>, caller: Caller, added: BrokerAccount)
    requires added.userId == caller.id && added.isActive
    ensures var after := Deactivate(accounts, caller.id) + [added];
      && (forall k | 0 <= k < |after| && after[k].userId == caller.id && after[k].isActive :: k == |after| - 1)
      && (forall k | 0 <= k < |accounts| && accounts[k].userId != caller.id :: after[k] == accounts[k])
      && after[|after| - 1] == added
  {
  }

  // ---------------------------------------------------------------------------
  // update_risk_settings
  // ---------------------------------------------------------------------------

  /** A preset: the non-description values it lists, keyed by rule column. */
  type Preset = map<Field, Value>

  /** Preset application: every non-null preset value replaces the column; the rest stay. */
  function ApplyPreset(s: Settings, p: Preset): (r: Settings)
    ensures r.Keys == s.Keys
    ensures forall f | f in s :: r[f] == if f in p && p[f] != Null then p[f] else s[f]
  {
    map f | f in s :: if f in p && p[f] != Null then p[f] else s[f]
  }

  /**
   * The preset step. `preset` is absent when the request does not name `preset_name`,
   * and holds the named value (possibly None) when it does.
   */
  function PresetStep(a: BrokerAccount, preset: Option<Option<string>>, presets: map<string, Preset>): (b: BrokerAccount)
    ensures preset.None? ==> b == a
    ensures preset.Some? && preset.value.Some? && preset.value.value != "" && preset.value.value in presets ==>
      b == a.(presetName := preset.value, settings := ApplyPreset(a.settings, presets[preset.value.value]))
    ensures preset.Some? && !(preset.value.Some? && preset.value.value != "" && preset.value.value in presets) ==>
      b == a.(presetName := None)
  {
    match preset
    case None => a
    case Some(name) =>
      if name.Some? && name.value != "" then
        if name.value in presets then
          a.(presetName := name, settings := ApplyPreset(a.settings, presets[name.value]))
        else a.(presetName := None)
      else a.(presetName := None)
  }

  /** The audit diff: each submitted field whose value differs, Python-wise, from the current one. */
  function ChangesOf(s: Settings, submitted: map<Field, Value>): map<Field, Change>
  {
    map f | f in submitted && f in s && !PyEq(s[f], submitted[f]) :: Change(s[f], submitted[f])
  }

  /** The settings after the overwrites: changed fields take the submitted value. */
  function Overwritten(s: Settings, submitted: map<Field, Value>): Settings
  {
    map f | f in s :: if f in submitted && !PyEq(s[f], submitted[f]) then submitted[f] else s[f]
  }

  function FieldsSubmitted(order: seq<Field>, submitted: map<Field, Value>): set<Field>
  {
    set k | 0 <= k < |order| && order[k] in submitted :: order[k]
  }

  /** The overwrites and the diff restricted to the fields in `done`. */
  function OverwrittenOn(s: Settings, submitted: map<Field, Value>, done: set<Field>): Settings
  {
    map f | f in s :: if f in done && f in submitted && !PyEq(s[f], submitted[f]) then submitted[f] else s[f]
  }

  function ChangesOn(s: Settings, submitted: map<Field, Value>, done: set<Field>): map<Field, Change>
  {
    map f | f in submitted && f in done && f in s && !PyEq(s[f], submitted[f]) :: Change(s[f], submitted[f])
  }

  function Done(i: nat): set<Field>
    requires i <= |FieldOrder|
  {
    set k | 0 <= k < i :: FieldOrder[k]
  }

  lemma DoneStep(i: nat)
    requires i < |FieldOrder|
    ensures Done(i + 1) == Done(i) + {FieldOrder[i]}
    ensures FieldOrder[i] !in Done(i)
  {
  }

  lemma DoneAll(f: Field)
    ensures f in Done(|FieldOrder|)
  {
    match f
    case DailyLossLimitPct => assert FieldOrder[0] == f;
    case MaxDrawdownLimitPct => assert FieldOrder[1] == f;
    case MaxDailyTrades => assert FieldOrder[2] == f;
    case MaxLotSize => assert FieldOrder[3] == f;
    case NewsTradingAllowed => assert FieldOrder[4] == f;
  }

  /** Handling one more field adds at most its own overwrite and its own entry. */
  lemma OnStep(s: Settings, submitted: map<Field, Value>, done: set<Field>, field: Field)
    requires field in s && field !in done
    ensures OverwrittenOn(s, submitted, done)[field] == s[field]
    ensures OverwrittenOn(s, submitted, done + {field}) ==
      if field in submitted && !PyEq(s[field], submitted[field])
      then OverwrittenOn(s, submitted, done)[field := submitted[field]]
      else OverwrittenOn(s, submitted, done)
    ensures ChangesOn(s, submitted, done + {field}) ==
      if field in submitted && !PyEq(s[field], submitted[field])
      then ChangesOn(s, submitted, done)[field := Change(s[field], submitted[field])]
      else ChangesOn(s, submitted, done)
  {
  }

  /** The overwrite loop in field order, building `changes` as it goes. */
  method DiffAndApply(s: Settings, submitted: map<Field, Value>) returns (s': Settings, changes: map<Field, Change>)
    requires s.Keys == AllFields
    ensures s' == Overwritten(s, submitted)
    ensures changes == ChangesOf(s, submitted)
  {
    s', changes := s, map[];
    var i := 0;
    assert Done(0) == {};
    assert s' == OverwrittenOn(s, submitted, {});
    while i < |FieldOrder|
      invariant 0 <= i <= |FieldOrder|
      invariant s' == OverwrittenOn(s, submitted, Done(i))
      invariant changes == ChangesOn(s, submitted, Done(i))
    {
      var field := FieldOrder[i];
      DoneStep(i);
      OnStep(s, submitted, Done(i), field);
      if field in submitted {
        var oldVal := s'[field];
        var value := submitted[field];
        if !PyEq(oldVal, value) {
          s' := s'[field := value];
          changes := changes[field := Change(oldVal, value)];
        }
      }
      i := i + 1;
    }
    forall f ensures f in Done(|FieldOrder|) {
      DoneAll(f);
    }
    assert Done(|FieldOrder|) == AllFields;
  }

  /** The diff lists exactly the submitted fields that changed, as {old, new}; unsubmitted fields keep their value. */
  lemma ChangesExact(s: Settings, submitted: map<Field, Value>)
    requires s.Keys == AllFields
    ensures ChangesOf(s, submitted).Keys == set f | f in submitted && f in s && !PyEq(s[f], submitted[f])
    ensures forall f | f in ChangesOf(s, submitted) ::
      ChangesOf(s, submitted)[f] == Change(s[f], submitted[f]) && Overwritten(s, submitted)[f] == submitted[f]
    ensures forall f | f in s && f !in submitted :: Overwritten(s, submitted)[f] == s[f]
    ensures forall f | f in submitted && f in s :: PyEq(Overwritten(s, submitted)[f], submitted[f])
  {
    forall f | f in submitted && f in s ensures PyEq(Overwritten(s, submitted)[f], submitted[f]) {
      PyEqIsEquivalence(s[f], submitted[f], submitted[f]);
    }
  }

  /** Sending the same fields again finds nothing to change, so no second audit entry is written. */
  lemma ResubmitChangesNothing(s: Settings, submitted: map<Field, Value>)
    requires s.Keys == AllFields
    ensures ChangesOf(Overwritten(s, submitted), submitted) == map[]
    ensures Overwritten(Overwritten(s, submitted), submitted) == Overwritten(s, submitted)
  {
    ChangesExact(s, submitted);
  }

  /** As written, the edit is committed only when the diff is non-empty. */
  predicate CommitsAsWritten(changes: map<Field, Change>, preset: Option<Option<string>>)
  {
    changes != map[]
  }

  /** The evident intent: the edit is committed when the diff is non-empty or the preset step ran. */
  predicate Commits(changes: map<Field, Change>, preset: Option<Option<string>>)
  {
    changes != map[] || preset.Some?
  }

  /**
   * A request naming only a known preset changes the returned account, but as written
   * nothing is committed: the session is closed and the edit is lost.
   */
  lemma PresetOnlyUpdateLostAsWritten(a: BrokerAccount)
    requires a.settings.Keys == AllFields && a.presetName.None? && a.settings[MaxLotSize] == Num(10.0)
    ensures var presets := map["FTMO" := map[MaxLotSize := Num(5.0)]];
      var b := PresetStep(a, Some(Some("FTMO")), presets);
      var c := ChangesOf(b.settings, map[]);
      var after := b.(settings := Overwritten(b.settings, map[]));
      && after.presetName == Some("FTMO") && after.settings[MaxLotSize] == Num(5.0)
      && !CommitsAsWritten(c, Some(Some("FTMO"))) && Commits(c, Some(Some("FTMO")))
  {
  }

  /** The corrected rule commits whenever the rule as written does, and an unchanged request commits under neither. */
  lemma CommitsExtendsAsWritten(changes: map<Field, Change>, preset: Option<Option<string>>)
    ensures CommitsAsWritten(changes, preset) ==> Commits(changes, preset)
    ensures preset.None? ==> (Commits(changes, preset) <==> CommitsAsWritten(changes, preset))
  {
  }

  /** Index of the caller's account with id `brokerId`. */
  function FindOwned(accounts: seq<BrokerAccount>, brokerId: int, userId: int): (r: Option<nat>)
    ensures r.Some? ==> r.value < |accounts| && accounts[r.value].id == brokerId && accounts[r.value].userId == userId
    ensures r.None? ==> forall k | 0 <= k < |accounts| :: !(accounts[k].id == brokerId && accounts[k].userId == userId)
  {
    if accounts == [] then None
    else if accounts[0].id == brokerId && accounts[0].userId == userId then Some(0)
    else
      match FindOwned(accounts[1..], brokerId, userId)
      case None => None
      case Some(k) => Some(k + 1)
  }

  /**
   * `update_risk_settings`. The returned account carries the preset and the overwrites;
   * the table and the audit log follow the corrected commit rule: the row is kept when
   * it changed, and an audit entry is written when the diff is non-empty.
   */
  method UpdateRiskSettings(store: BrokerStore, caller: Caller, brokerId: int,
                            preset: Option<Option<string>>, submitted: map<Field, Value>,
                            presets: map<string, Preset>)
    returns (r: Result<BrokerAccount>)
    requires store.Valid()
    modifies store
    ensures store.Valid()
    ensures store.nextId == old(store.nextId)
    ensures match FindOwned(old(store.accounts), brokerId, caller.id)
      case None =>
        && r == Err(HttpError(404, "Broker account not found"))
        && store.accounts == old(store.accounts) && store.audit == old(store.audit)
      case Some(k) =>
        var a := old(store.accounts)[k];
        var b := PresetStep(a, preset, presets);
        var changes := ChangesOf(b.settings, submitted);
        var after := b.(settings := Overwritten(b.settings, submitted));
        && r == Ok(after)
        && store.accounts == (if Commits(changes, preset) then old(store.accounts)[k := after] else old(store.accounts))
        && store.audit == old(store.audit)
             + (if changes != map[] then [AuditEntry(caller.id, a.id, "rule_change", "risk", changes)] else [])
  {
    var found := FindOwned(store.accounts, brokerId, caller.id);
    if found.None? {
      return Err(HttpError(404, "Broker account not found"));
    }
    var k := found.value;
    var account := store.accounts[k];

    // 1. preset
    var b := PresetStep(account, preset, presets);

    // 2. overwrites and diff
    var settings, changes := DiffAndApply(b.settings, submitted);
    var after := b.(settings := settings);

    if changes != map[] {
      store.audit := store.audit + [AuditEntry(caller.id, account.id, "rule_change", "risk", changes)];
    }
    if changes != map[] || preset.Some? {
      RowUpdateKeepsValid(store.accounts, store.nextId, k, after);
      store.accounts := store.accounts[k := after];
    }
    r := Ok(after);
  }
}

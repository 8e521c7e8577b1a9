/**
 * The dashboard router (backend/app/routers/dashboard.py): the choice of broker
 * connector, the free-tier gating of the behavioural insights and the onboarding
 * flags of the overview, and the cross-account aggregation of the portfolio view.
 */
module Dashboard {
  import opened Wrappers
  import Brokers
  import Intelligence

  // ---------------------------------------------------------------------------
  // get_broker_service
  // ---------------------------------------------------------------------------

  /** The connector a request talks to: a MetaApi client for one account, or the mock bridge. */
  datatype Connector = MetaApi(token: string, accountId: string) | Mock

  /** `META_API_TOKEN` and `META_ACCOUNT_ID`; the empty string stands for an unset variable. */
  datatype EnvSettings = EnvSettings(metaApiToken: string, metaAccountId: string)

  /** `.first()` of the caller's active accounts, in row order. */
  function FirstActive(accounts: seq<Brokers.BrokerAccount>, userId: int): (r: Option<Brokers.BrokerAccount>)
    ensures r.Some? <==> exists k | 0 <= k < |accounts| :: accounts[k].userId == userId && accounts[k].isActive
    ensures r.Some? ==> exists k | 0 <= k < |accounts| ::
      (accounts[k] == r.value && r.value.userId == userId && r.value.isActive
       && forall j | 0 <= j < k :: !(accounts[j].userId == userId && accounts[j].isActive))
  {
    if |accounts| == 0 then None
    else if accounts[0].userId == userId && accounts[0].isActive then Some(accounts[0])
    else
      var r := FirstActive(accounts[1..], userId);
      assert forall k | 0 <= k < |accounts| - 1 :: accounts[1..][k] == accounts[k + 1];
      if r.Some? then
        var k :| 0 <= k < |accounts[1..]| && accounts[1..][k] == r.value
          && forall j | 0 <= j < k :: !(accounts[1..][j].userId == userId && accounts[1..][j].isActive);
        assert accounts[k + 1] == r.value;
        r
      else r
  }

  /** The account the connector is built for: the given row, else the caller's first active one. */
  function ChosenAccount(given: Option<Brokers.BrokerAccount>, accounts: seq<Brokers.BrokerAccount>, userId: int)
    : Option<Brokers.BrokerAccount>
  {
    if given.Some? then given else FirstActive(accounts, userId)
  }

  /**
   * `get_broker_service`. `decrypted` is the outcome of decrypting the chosen account's
   * token and building its client: the token, or None when either raised.
   */
  function SelectConnector(given: Option<Brokers.BrokerAccount>, accounts: seq<Brokers.BrokerAccount>, userId: int,
                           decrypted: Option<string>, env: EnvSettings): (c: Connector)
    ensures var acc := ChosenAccount(given, accounts, userId);
      acc.Some? && acc.value.provider == "metaapi" ==>
        c == (if decrypted.Some? then MetaApi(decrypted.value, acc.value.accountId) else Mock)
    ensures var acc := ChosenAccount(given, accounts, userId);
      !(acc.Some? && acc.value.provider == "metaapi") ==>
        c == (if env.metaApiToken != "" && env.metaAccountId != ""
              then MetaApi(env.metaApiToken, env.metaAccountId) else Mock)
  {
    var acc := if given.Some? then given else FirstActive(accounts, userId);
    if acc.Some? && acc.value.provider == "metaapi" then
      if decrypted.Some? then MetaApi(decrypted.value, acc.value.accountId) else Mock
    else if env.metaApiToken != "" && env.metaAccountId != "" then
      MetaApi(env.metaApiToken, env.metaAccountId)
    else
      Mock
  }

  /** A metaapi account whose token fails to decrypt falls back to the mock, never to the environment. */
  lemma DecryptFailureNeverUsesEnv(given: Option<Brokers.BrokerAccount>, accounts: seq<Brokers.BrokerAccount>,
                                   userId: int, env: EnvSettings)
    requires var acc := ChosenAccount(given, accounts, userId); acc.Some? && acc.value.provider == "metaapi"
    ensures SelectConnector(given, accounts, userId, None, env) == Mock
  {
  }

  /**
   * Every MetaApi client is built either from the chosen metaapi account (its decrypted
   * token and its account id) or from the environment variables.
   */
  lemma ConnectorSources(given: Option<Brokers.BrokerAccount>, accounts: seq<Brokers.BrokerAccount>, userId: int,
                         decrypted: Option<string>, env: EnvSettings)
    ensures var c := SelectConnector(given, accounts, userId, decrypted, env);
      var acc := ChosenAccount(given, accounts, userId);
      c.MetaApi? ==>
        (acc.Some? && acc.value.provider == "metaapi" && decrypted == Some(c.token) && c.accountId == acc.value.accountId)
        || (!(acc.Some? && acc.value.provider == "metaapi") && c == MetaApi(env.metaApiToken, env.metaAccountId))
  {
  }

  /**
   * An inactive account passed in by the portfolio view is still used; an account of
   * another provider is not, and then the environment's connector answers for it.
   */
  lemma OtherProviderUsesEnv(acc: Brokers.BrokerAccount, accounts: seq<Brokers.BrokerAccount>, userId: int,
                             decrypted: Option<string>, env: EnvSettings)
    requires acc.provider != "metaapi" && env.metaApiToken != "" && env.metaAccountId != ""
    ensures SelectConnector(Some(acc), accounts, userId, decrypted, env) == MetaApi(env.metaApiToken, env.metaAccountId)
  {
  }

  // ---------------------------------------------------------------------------
  // get_dashboard_overview: tier gating and onboarding flags
  // ---------------------------------------------------------------------------

  const FreeTierPrefix: string := "[Free Tier] "

  /** The `score` entry of the insights: the numeric score, or the upgrade prompt. */
  datatype ScoreField = Points(points: int) | UpgradeToPro

  datatype Insights = Insights(
    flags: seq<Intelligence.Flag>, sessionPerformance: map<string, Intelligence.SessionStats>, score: ScoreField)

  /** What a free-tier caller is shown: every flag message prefixed, no sessions, no score. */
  function FreeTierInsights(a: Intelligence.Analysis): Insights
  {
    Insights(seq(|a.flags|, i requires 0 <= i < |a.flags| => a.flags[i].(message := FreeTierPrefix + a.flags[i].message)),
             map[], UpgradeToPro)
  }

  /** The insights as returned for the caller's tier. */
  function Gated(a: Intelligence.Analysis, tier: string): Insights
  {
    if tier == "free" then FreeTierInsights(a) else Insights(a.flags, a.sessionPerformance, Points(a.score))
  }

  /** The free-tier block, mutating each flag's message in turn. */
  method GateInsights(a: Intelligence.Analysis, tier: string) returns (r: Insights)
    ensures r == Gated(a, tier)
  {
    r := Insights(a.flags, a.sessionPerformance, Points(a.score));
    if tier == "free" {
      r := r.(score := UpgradeToPro, sessionPerformance := map[]);
      var flags := a.flags;
      var i := 0;
      while i < |flags|
        invariant 0 <= i <= |flags| && |flags| == |a.flags|
        invariant forall k | 0 <= k < i :: flags[k] == a.flags[k].(message := FreeTierPrefix + a.flags[k].message)
        invariant forall k | i <= k < |flags| :: flags[k] == a.flags[k]
      {
        flags := flags[i := flags[i].(message := FreeTierPrefix + flags[i].message)];
        i := i + 1;
      }
      r := r.(flags := flags);
    }
  }

  /** The message with the free-tier prefix removed, when it carries one. */
  function StripPrefix(m: string): (r: string)
    ensures |m| >= |FreeTierPrefix| && m[..|FreeTierPrefix|] == FreeTierPrefix ==> m == FreeTierPrefix + r
  {
    if |m| >= |FreeTierPrefix| && m[..|FreeTierPrefix|] == FreeTierPrefix then m[|FreeTierPrefix|..] else m
  }

  /**
   * Free-tier gating loses nothing of the flags: the same flags in the same order, same
   * kinds and severities, and stripping the prefix gives back each original message.
   */
  lemma FreeTierKeepsFlags(a: Intelligence.Analysis)
    ensures var g := Gated(a, "free");
      |g.flags| == |a.flags| && g.score == UpgradeToPro && g.sessionPerformance == map[]
      && forall i | 0 <= i < |a.flags| ::
           g.flags[i].kind == a.flags[i].kind && g.flags[i].severity == a.flags[i].severity
           && g.flags[i].message[..|FreeTierPrefix|] == FreeTierPrefix
           && StripPrefix(g.flags[i].message) == a.flags[i].message
  {
    var g := Gated(a, "free");
    forall i | 0 <= i < |a.flags|
      ensures g.flags[i].message[..|FreeTierPrefix|] == FreeTierPrefix
      ensures StripPrefix(g.flags[i].message) == a.flags[i].message
    {
      var m := g.flags[i].message;
      assert m == FreeTierPrefix + a.flags[i].message;
      assert m[..|FreeTierPrefix|] == FreeTierPrefix;
      assert m[|FreeTierPrefix|..] == a.flags[i].message;
    }
  }

  /** Any other tier, "standard" and "pro" alike, gets the analysis untouched. */
  lemma PaidTierUntouched(a: Intelligence.Analysis, tier: string)
    requires tier != "free"
    ensures Gated(a, tier) == Insights(a.flags, a.sessionPerformance, Points(a.score))
  {
  }

  /** The `onboarding` block of the overview. */
  datatype Onboarding = Onboarding(hasAccount: bool, hasPreset: bool, hasAlerts: bool, hasReport: bool)

  /**
   * The onboarding block as written: it reads `rule_preset` and `telegram_enabled`,
   * which a `BrokerAccount` row does not have, so with an active account the read
   * raises and the overview's handler turns it into a 500.
   */
  function OnboardingAsWritten(account: Option<Brokers.BrokerAccount>): (r: Result<Onboarding>)
    ensures r.Err? <==> account.Some?
    ensures r.Err? ==> r.error.status == 500
    ensures r.Ok? ==> r.value == Onboarding(false, false, false, false)
  {
    if account.Some? then Err(HttpError(500, "'BrokerAccount' object has no attribute 'rule_preset'"))
    else Ok(Onboarding(false, false, false, false))
  }

  /** The onboarding block as intended, read from the row's `preset_name` and `telegram_alerts_enabled`. */
  function OnboardingFlags(account: Option<Brokers.BrokerAccount>): (r: Onboarding)
    ensures r.hasAccount <==> account.Some?
    ensures r.hasPreset <==> account.Some? && account.value.presetName.Some?
    ensures r.hasAlerts <==> account.Some? && account.value.telegramAlertsEnabled
    ensures !r.hasReport
  {
    match account
    case None => Onboarding(false, false, false, false)
    case Some(a) => Onboarding(true, a.presetName.Some?, a.telegramAlertsEnabled, false)
  }

  /** As written, every caller with an active account gets a 500 from the overview. */
  lemma OverviewFailsForActiveAccountAsWritten(accounts: seq<Brokers.BrokerAccount>, k: nat, userId: int)
    requires k < |accounts| && accounts[k].userId == userId && accounts[k].isActive
    ensures OnboardingAsWritten(FirstActive(accounts, userId)).Err?
  {
  }

  /** The intended block agrees with the one written wherever the latter does not raise. */
  lemma OnboardingFlagsExtendsAsWritten(account: Option<Brokers.BrokerAccount>)
    ensures OnboardingAsWritten(account).Ok? ==> OnboardingAsWritten(account).value == OnboardingFlags(account)
  {
  }

  /** The tier-dependent parts of the overview response. */
  datatype Overview = Overview(intelligence: Insights, onboarding: Onboarding)

  /**
   * The gated insights and the onboarding flags of `get_dashboard_overview`, computed
   * from the broker's trades; the risk report part is `Risk.CheckRisk`.
   */
  method DashboardOverview(accounts: seq<Brokers.BrokerAccount>, userId: int, tier: string,
                           trades: seq<Intelligence.TradeRecord>, now: int)
    returns (r: Overview)
    ensures r.intelligence == Gated(Intelligence.Analyze(trades, now), tier)
    ensures r.onboarding == OnboardingFlags(FirstActive(accounts, userId))
  {
    var accountModel := FirstActive(accounts, userId);
    var analysis := Intelligence.AnalyzeBehavior(trades, now);
    var insights := GateInsights(analysis, tier);
    r := Overview(insights, OnboardingFlags(accountModel));
  }

  // ---------------------------------------------------------------------------
  // get_portfolio_overview
  // ---------------------------------------------------------------------------

  /** The account-info dict; a missing key reads as 0 through `.get(key, 0)`. */
  datatype AccountInfo = AccountInfo(balance: Option<real>, equity: Option<real>, profit: Option<real>)

  /** One open trade dict: symbol, `type` and volume. */
  datatype PortfolioTrade = PortfolioTrade(symbol: string, kind: string, volume: real)

  /** What `fetch_account_stats` returns for one account, None when any step raised. */
  datatype FetchData = FetchData(info: AccountInfo, trades: seq<PortfolioTrade>)

  datatype Success = Success(acc: Brokers.BrokerAccount, info: AccountInfo, trades: seq<PortfolioTrade>)

  datatype Exposure = Exposure(long: real, short: real)

  datatype Summary = Summary(id: int, name: string, balance: real, equity: real, status: string)

  datatype Warning = Hedged(symbol: string) | HighExposure(symbol: string, lots: real)

  datatype Portfolio = Portfolio(
    totalBalance: real, totalEquity: real, totalProfit: real, accountCount: nat,
    accounts: seq<Summary>, warnings: seq<Warning>,
    exposure: map<string, Exposure>, symbols: seq<string>)

  datatype Metric = Balance | Equity | Profit

  function Get(v: Option<real>): real
  {
    if v.Some? then v.value else 0.0
  }

  function Amount(info: AccountInfo, m: Metric): real
  {
    match m
    case Balance => Get(info.balance)
    case Equity => Get(info.equity)
    case Profit => Get(info.profit)
  }

  /** The results that were not None, each paired with its account, in account order. */
  function Successes(accounts: seq<Brokers.BrokerAccount>, fetches: seq<Option<FetchData>>): (r: seq<Success>)
    requires |accounts| == |fetches|
    ensures |r| <= |fetches|
  {
    if |fetches| == 0 then []
    else
      (if fetches[0].Some? then [Success(accounts[0], fetches[0].value.info, fetches[0].value.trades)] else [])
      + Successes(accounts[1..], fetches[1..])
  }

  /** One step of `Successes`: the head's contribution before the rest's. */
  lemma SuccessesCons(accounts: seq<Brokers.BrokerAccount>, fetches: seq<Option<FetchData>>)
    requires |accounts| == |fetches| > 0
    ensures Successes(accounts, fetches)
         == (if fetches[0].Some? then [Success(accounts[0], fetches[0].value.info, fetches[0].value.trades)] else [])
            + Successes(accounts[1..], fetches[1..])
  {
  }

  /** An account whose fetch failed can be dropped without changing the successes. */
  lemma {:induction false} FailedFetchIgnored(accounts: seq<Brokers.BrokerAccount>, fetches: seq<Option<FetchData>>, i: nat)
    requires |accounts| == |fetches| && i < |fetches| && fetches[i].None?
    ensures Successes(accounts, fetches)
         == Successes(accounts[..i] + accounts[i + 1..], fetches[..i] + fetches[i + 1..])
  {
    var a', f' := accounts[..i] + accounts[i + 1..], fetches[..i] + fetches[i + 1..];
    if i > 0 {
      FailedFetchIgnored(accounts[1..], fetches[1..], i - 1);
      assert accounts[1..][..i - 1] + accounts[1..][i..] == a'[1..];
      assert fetches[1..][..i - 1] + fetches[1..][i..] == f'[1..];
      assert a'[0] == accounts[0] && f'[0] == fetches[0];
      SuccessesCons(accounts, fetches);
      SuccessesCons(a', f');
    } else {
      assert a' == accounts[1..] && f' == fetches[1..];
      SuccessesCons(accounts, fetches);
    }
  }

  /** A sum of one metric over successful fetches. */
  function Total(rs: seq<Success>, m: Metric): real
  {
    if |rs| == 0 then 0.0 else Total(rs[..|rs| - 1], m) + Amount(rs[|rs| - 1].info, m)
  }

  /** Every trade of every successful fetch, in order. */
  function AllTrades(rs: seq<Success>): seq<PortfolioTrade>
  {
    if |rs| == 0 then [] else AllTrades(rs[..|rs| - 1]) + rs[|rs| - 1].trades
  }

  /** The volume of `sym`'s trades of type "buy". */
  function LongVolume(ts: seq<PortfolioTrade>, sym: string): real
  {
    if |ts| == 0 then 0.0
    else
      var t := ts[|ts| - 1];
      LongVolume(ts[..|ts| - 1], sym) + (if t.symbol == sym && t.kind == "buy" then t.volume else 0.0)
  }

  /** The volume of `sym`'s trades of any other type. */
  function ShortVolume(ts: seq<PortfolioTrade>, sym: string): real
  {
    if |ts| == 0 then 0.0
    else
      var t := ts[|ts| - 1];
      ShortVolume(ts[..|ts| - 1], sym) + (if t.symbol == sym && t.kind != "buy" then t.volume else 0.0)
  }

  /** The volume of all of `sym`'s trades, whatever their type. */
  function SymbolVolume(ts: seq<PortfolioTrade>, sym: string): real
  {
    if |ts| == 0 then 0.0
    else SymbolVolume(ts[..|ts| - 1], sym) + (if ts[|ts| - 1].symbol == sym then ts[|ts| - 1].volume else 0.0)
  }

  /** The symbols in the order they were first met, which is the dict's iteration order. */
  function Symbols(ts: seq<PortfolioTrade>): seq<string>
  {
    if |ts| == 0 then []
    else
      var prior := Symbols(ts[..|ts| - 1]);
      if ts[|ts| - 1].symbol in prior then prior else prior + [ts[|ts| - 1].symbol]
  }

  /** The `symbol_exposure` dict the loops build. */
  function ExposureOf(ts: seq<PortfolioTrade>): map<string, Exposure>
  {
    map s | s in Symbols(ts) :: Exposure(LongVolume(ts, s), ShortVolume(ts, s))
  }

  /** The warnings for one symbol: hedged first, then high exposure. */
  function WarningsFor(sym: string, e: Exposure): seq<Warning>
  {
    (if e.long > 0.0 && e.short > 0.0 then [Hedged(sym)] else [])
      + (if e.long > 5.0 || e.short > 5.0 then [HighExposure(sym, if e.long >= e.short then e.long else e.short)]
         else [])
  }

  /** The correlation warnings, symbol by symbol in iteration order. */
  function Warnings(symbols: seq<string>, exposure: map<string, Exposure>): seq<Warning>
    requires forall s | s in symbols :: s in exposure
  {
    if |symbols| == 0 then []
    else Warnings(symbols[..|symbols| - 1], exposure) + WarningsFor(symbols[|symbols| - 1], exposure[symbols[|symbols| - 1]])
  }

  function SummaryOf(r: Success): Summary
  {
    Summary(r.acc.id, r.acc.name, Get(r.info.balance), Get(r.info.equity), if r.acc.isActive then "active" else "inactive")
  }

  /** The response the portfolio view computes from the accounts and the outcome of each fetch. */
  function PortfolioOf(accounts: seq<Brokers.BrokerAccount>, fetches: seq<Option<FetchData>>): Portfolio
    requires |accounts| == |fetches|
  {
    var rs := Successes(accounts, fetches);
    var ts := AllTrades(rs);
    SymbolsInExposure(ts);
    Portfolio(Total(rs, Balance), Total(rs, Equity), Total(rs, Profit), |accounts|,
              Summaries(rs),
              Warnings(Symbols(ts), ExposureOf(ts)), ExposureOf(ts), Symbols(ts))
  }

  lemma SymbolsInExposure(ts: seq<PortfolioTrade>)
    ensures forall s | s in Symbols(ts) :: s in ExposureOf(ts)
  {
  }

  // --- properties of the specification -------------------------------------

  /** Buy volume and other volume split each symbol's total volume. */
  lemma {:induction false} LongShortSplit(ts: seq<PortfolioTrade>, sym: string)
    ensures LongVolume(ts, sym) + ShortVolume(ts, sym) == SymbolVolume(ts, sym)
  {
    if |ts| > 0 {
      LongShortSplit(ts[..|ts| - 1], sym);
    }
  }

  /** The symbols met are exactly those of the trades, each listed once. */
  lemma {:induction false} SymbolsExact(ts: seq<PortfolioTrade>)
    ensures forall s :: s in Symbols(ts) <==> exists k | 0 <= k < |ts| :: ts[k].symbol == s
    ensures forall i, j | 0 <= i < j < |Symbols(ts)| :: Symbols(ts)[i] != Symbols(ts)[j]
  {
    if |ts| > 0 {
      var p := ts[..|ts| - 1];
      SymbolsExact(p);
      forall s
        ensures s in Symbols(ts) <==> exists k | 0 <= k < |ts| :: ts[k].symbol == s
      {
        if s in Symbols(p) {
          var k :| 0 <= k < |p| && p[k].symbol == s;
          assert ts[k].symbol == s;
        }
        if exists k | 0 <= k < |ts| :: ts[k].symbol == s {
          var k :| 0 <= k < |ts| && ts[k].symbol == s;
          if k < |ts| - 1 {
            assert p[k].symbol == s;
          }
        }
      }
    }
  }

  /** A symbol that never trades has no volume of either kind. */
  lemma {:induction false} AbsentSymbolHasNoVolume(ts: seq<PortfolioTrade>, sym: string)
    requires forall k | 0 <= k < |ts| :: ts[k].symbol != sym
    ensures LongVolume(ts, sym) == 0.0 && ShortVolume(ts, sym) == 0.0
  {
    if |ts| > 0 {
      AbsentSymbolHasNoVolume(ts[..|ts| - 1], sym);
    }
  }

  /**
   * The warnings of one symbol: a hedged warning iff it has both long and short volume,
   * a high-exposure warning, carrying the larger side, iff either side exceeds 5 lots,
   * and so at most two.
   */
  lemma WarningsForExact(sym: string, e: Exposure)
    ensures Hedged(sym) in WarningsFor(sym, e) <==> e.long > 0.0 && e.short > 0.0
    ensures (exists w | w in WarningsFor(sym, e) :: w.HighExposure?) <==> e.long > 5.0 || e.short > 5.0
    ensures forall w | w in WarningsFor(sym, e) ::
      w.symbol == sym && (w.HighExposure? ==> w.lots >= e.long && w.lots >= e.short && (w.lots == e.long || w.lots == e.short))
    ensures |WarningsFor(sym, e)| <= 2
  {
    if e.long > 5.0 || e.short > 5.0 {
      var w := WarningsFor(sym, e)[|WarningsFor(sym, e)| - 1];
      assert w in WarningsFor(sym, e) && w.HighExposure?;
    }
  }

  /** With every fetch failed the totals are zero and there is no exposure, yet every account is counted. */
  lemma {:induction false} AllFailedIsEmpty(accounts: seq<Brokers.BrokerAccount>, fetches: seq<Option<FetchData>>)
    requires |accounts| == |fetches| && forall i | 0 <= i < |fetches| :: fetches[i].None?
    ensures var p := PortfolioOf(accounts, fetches);
      p.totalBalance == 0.0 && p.totalEquity == 0.0 && p.totalProfit == 0.0
      && p.accountCount == |accounts| && p.accounts == [] && p.warnings == [] && p.exposure == map[]
  {
    if |fetches| > 0 {
      AllFailedIsEmpty(accounts[1..], fetches[1..]);
    }
  }

  // --- the loops -------------------------------------------------------------

  lemma PrefixStep<T>(s: seq<T>, i: nat)
    requires i < |s|
    ensures s[..i + 1][..i] == s[..i] && s[..i + 1][i] == s[i]
  {
  }

  lemma SnocPrefix<T>(before: seq<T>, s: seq<T>, j: nat)
    requires j < |s|
    ensures before + s[..j + 1] == (before + s[..j]) + [s[j]]
  {
    assert s[..j + 1] == s[..j] + [s[j]];
  }

  /** Adding one trade updates the exposure at its symbol only. */
  lemma ExposureStep(ts: seq<PortfolioTrade>, t: PortfolioTrade)
    ensures var e := ExposureOf(ts);
      var old_e := if t.symbol in e then e[t.symbol] else Exposure(0.0, 0.0);
      ExposureOf(ts + [t]) == e[t.symbol := if t.kind == "buy" then old_e.(long := old_e.long + t.volume)
                                              else old_e.(short := old_e.short + t.volume)]
  {
    var ts' := ts + [t];
    assert ts'[..|ts'| - 1] == ts;
    if t.symbol !in Symbols(ts) {
      SymbolsExact(ts);
      AbsentSymbolHasNoVolume(ts, t.symbol);
    }
  }

  /** The dict after one trade of the inner loop: the symbol's entry, created at zero, grows on its side. */
  function AddTradeTo(e: map<string, Exposure>, t: PortfolioTrade): map<string, Exposure>
  {
    var cur := if t.symbol in e then e[t.symbol] else Exposure(0.0, 0.0);
    e[t.symbol := if t.kind == "buy" then cur.(long := cur.long + t.volume) else cur.(short := cur.short + t.volume)]
  }

  /** The inner loop's body, as statements on the dict and the symbol order. */
  method AddTrade(e: map<string, Exposure>, symbols: seq<string>, t: PortfolioTrade)
    returns (e': map<string, Exposure>, symbols': seq<string>)
    ensures e' == AddTradeTo(e, t)
    ensures symbols' == if t.symbol in e then symbols else symbols + [t.symbol]
  {
    e', symbols' := e, symbols;
    if t.symbol !in e' {
      e' := e'[t.symbol := Exposure(0.0, 0.0)];
      symbols' := symbols' + [t.symbol];
    }
    if t.kind == "buy" {
      e' := e'[t.symbol := e'[t.symbol].(long := e'[t.symbol].long + t.volume)];
    } else {
      e' := e'[t.symbol := e'[t.symbol].(short := e'[t.symbol].short + t.volume)];
    }
  }

  /** One more trade moves the specification exactly as the loop body does. */
  lemma AddTradeStep(done: seq<PortfolioTrade>, t: PortfolioTrade)
    ensures AddTradeTo(ExposureOf(done), t) == ExposureOf(done + [t])
    ensures Symbols(done + [t]) == if t.symbol in ExposureOf(done) then Symbols(done) else Symbols(done) + [t.symbol]
  {
    ExposureStep(done, t);
    assert (done + [t])[..|done + [t]| - 1] == done;
  }

  /** The trades of the first `i + 1` successes extend those of the first `i`. */
  lemma AllTradesStep(rs: seq<Success>, i: nat)
    requires i < |rs|
    ensures AllTrades(rs[..i + 1]) == AllTrades(rs[..i]) + rs[i].trades
    ensures Total(rs[..i + 1], Balance) == Total(rs[..i], Balance) + Get(rs[i].info.balance)
    ensures Total(rs[..i + 1], Equity) == Total(rs[..i], Equity) + Get(rs[i].info.equity)
    ensures Total(rs[..i + 1], Profit) == Total(rs[..i], Profit) + Get(rs[i].info.profit)
    ensures Summaries(rs[..i + 1]) == Summaries(rs[..i]) + [SummaryOf(rs[i])]
  {
    PrefixStep(rs, i);
  }

  /** The inner loop: folds one account's trades into the exposure dict and the symbol order. */
  method AddTrades(exposure: map<string, Exposure>, symbols: seq<string>, ghost before: seq<PortfolioTrade>,
                   trades: seq<PortfolioTrade>)
    returns (exposure': map<string, Exposure>, symbols': seq<string>)
    requires exposure == ExposureOf(before) && symbols == Symbols(before)
    ensures exposure' == ExposureOf(before + trades) && symbols' == Symbols(before + trades)
  {
    exposure', symbols' := exposure, symbols;
    var j := 0;
    ghost var done := before;
    while j < |trades|
      invariant 0 <= j <= |trades| && done == before + trades[..j]
      invariant exposure' == ExposureOf(done) && symbols' == Symbols(done)
    {
      var t := trades[j];
      AddTradeStep(done, t);
      exposure', symbols' := AddTrade(exposure', symbols', t);
      SnocPrefix(before, trades, j);
      done := done + [t];
      j := j + 1;
    }
    assert trades[..j] == trades;
  }

  /** The correlation-warnings loop over the dict's items. */
  method CollectWarnings(symbols: seq<string>, exposure: map<string, Exposure>) returns (w: seq<Warning>)
    requires forall s | s in symbols :: s in exposure
    ensures w == Warnings(symbols, exposure)
  {
    w := [];
    var i := 0;
    while i < |symbols|
      invariant 0 <= i <= |symbols|
      invariant w == Warnings(symbols[..i], exposure)
    {
      PrefixStep(symbols, i);
      var sym := symbols[i];
      var vols := exposure[sym];
      if vols.long > 0.0 && vols.short > 0.0 {
        w := w + [Hedged(sym)];
      }
      if vols.long > 5.0 || vols.short > 5.0 {
        w := w + [HighExposure(sym, if vols.long >= vols.short then vols.long else vols.short)];
      }
      i := i + 1;
    }
    assert symbols[..i] == symbols;
  }

  /** The per-account summaries of the successful fetches. */
  function Summaries(rs: seq<Success>): seq<Summary>
  {
    if |rs| == 0 then [] else Summaries(rs[..|rs| - 1]) + [SummaryOf(rs[|rs| - 1])]
  }

  /** The loop over the successful results: totals, the exposure dict with its order, and the summaries. */
  method Aggregate(results: seq<Success>)
    returns (totalBalance: real, totalEquity: real, totalProfit: real,
             exposure: map<string, Exposure>, symbols: seq<string>, summaries: seq<Summary>)
    ensures totalBalance == Total(results, Balance) && totalEquity == Total(results, Equity)
    ensures totalProfit == Total(results, Profit)
    ensures exposure == ExposureOf(AllTrades(results)) && symbols == Symbols(AllTrades(results))
    ensures summaries == Summaries(results)
  {
    totalBalance, totalEquity, totalProfit := 0.0, 0.0, 0.0;
    exposure, symbols, summaries := map[], [], [];
    ghost var seen: seq<PortfolioTrade> := [];
    var i := 0;
    while i < |results|
      invariant 0 <= i <= |results| && seen == AllTrades(results[..i])
      invariant totalBalance == Total(results[..i], Balance)
      invariant totalEquity == Total(results[..i], Equity)
      invariant totalProfit == Total(results[..i], Profit)
      invariant exposure == ExposureOf(seen) && symbols == Symbols(seen)
      invariant summaries == Summaries(results[..i])
    {
      var res := results[i];
      AllTradesStep(results, i);
      totalBalance := totalBalance + Get(res.info.balance);
      totalEquity := totalEquity + Get(res.info.equity);
      totalProfit := totalProfit + Get(res.info.profit);
      exposure, symbols := AddTrades(exposure, symbols, seen, res.trades);
      seen := seen + res.trades;
      var summary := Summary(res.acc.id, res.acc.name, Get(res.info.balance), Get(res.info.equity),
                             if res.acc.isActive then "active" else "inactive");
      assert summary == SummaryOf(results[i]);
      summaries := summaries + [summary];
      i := i + 1;
    }
    assert results[..i] == results;
  }

  /**
   * `get_portfolio_overview`: `fetches[i]` is the outcome of fetching `accounts[i]`
   * (the parallel gather resolves to one result per account, in order).
   */
  method GetPortfolioOverview(accounts: seq<Brokers.BrokerAccount>, fetches: seq<Option<FetchData>>)
    returns (p: Portfolio)
    requires |accounts| == |fetches|
    ensures p == PortfolioOf(accounts, fetches)
  {
    var results := Successes(accounts, fetches);
    var totalBalance, totalEquity, totalProfit, exposure, symbols, summaries := Aggregate(results);
    SymbolsInExposure(AllTrades(results));
    var warnings := CollectWarnings(symbols, exposure);
    p := Portfolio(totalBalance, totalEquity, totalProfit, |accounts|, summaries, warnings, exposure, symbols);
  }
}

/**
 * The behaviour analyser `IntelligenceEngine.analyze_behavior`
 * (backend/app/engine/intelligence.py): overtrading count over the last hour, a
 * revenge-trade scan over adjacent trades in descending open-time order, session
 * buckets and the score.
 */
module Intelligence {
  import opened Wrappers
  import Text
  import Risk
  import StableSort

  // ---------------------------------------------------------------------------
  // Trade records and the accessor helpers
  // ---------------------------------------------------------------------------

  /** A naive datetime, as whole seconds since `datetime.min`. */
  type Instant = nat

  /** The one-hour overtrading window and the ten-minute revenge window, in seconds. */
  const HourWindow: int := 3600
  const RevengeWindow: int := 600

  /**
   * A time field of a trade record: absent, an ISO text (carrying the outcome of
   * `datetime.fromisoformat`, with the offset dropped), or a datetime already.
   */
  datatype TimeField = Missing | IsoText(parsed: Option<Instant>) | Moment(at: Instant)

  /**
   * A trade record as the analyser reads it with `_get_val`, whether it is a dict or a
   * row: absent keys read as None, an absent volume as 0.
   */
  datatype TradeRecord = TradeRecord(
    openTime: TimeField, closeTime: TimeField, profit: Option<real>, volume: real,
    session: Option<string>)

  /** `_parse_time`: text is parsed, a datetime is kept, an absent value stays None. */
  function ParseTime(f: TimeField): Option<Instant>
  {
    match f
    case Missing => None
    case IsoText(p) => p
    case Moment(t) => Some(t)
  }

  datatype FlagKind = Overtrading | RevengeTrading
  datatype FlagSeverity = SeverityWarning | SeverityCritical

  datatype Flag = Flag(kind: FlagKind, severity: FlagSeverity, message: string)

  datatype SessionStats = SessionStats(count: nat, profit: real)

  datatype Analysis = Analysis(flags: seq<Flag>, sessionPerformance: map<string, SessionStats>, score: int)

  // ---------------------------------------------------------------------------
  // 1. Overtrading
  // ---------------------------------------------------------------------------

  /** A trade is recent when it has a parseable open time less than an hour before `now`. */
  predicate IsRecent(t: TradeRecord, now: int)
  {
    ParseTime(t.openTime).Some? && now - ParseTime(t.openTime).value < HourWindow
  }

  function CountRecent(ts: seq<TradeRecord>, now: int): nat
  {
    if ts == [] then 0
    else CountRecent(ts[..|ts| - 1], now) + (if IsRecent(ts[|ts| - 1], now) then 1 else 0)
  }

  /** The counting loop of the overtrading check. */
  method CountRecentTrades(ts: seq<TradeRecord>, now: int) returns (n: nat)
    ensures n == CountRecent(ts, now)
  {
    n := 0;
    var i := 0;
    while i < |ts|
      invariant 0 <= i <= |ts|
      invariant n == CountRecent(ts[..i], now)
    {
      assert ts[..i + 1][..i] == ts[..i];
      var openTime := ParseTime(ts[i].openTime);
      if openTime.Some? {
        if now - openTime.value < HourWindow {
          n := n + 1;
        }
      }
      i := i + 1;
    }
    assert ts[..|ts|] == ts;
  }

  function OvertradingMessage(n: nat): string
  {
    "High frequency detected: " + Text.NatToString(n) + " trades in the last hour."
  }

  /** The overtrading flag: from five recent trades, critical from ten. */
  function OvertradingFlags(n: nat): seq<Flag>
  {
    if n >= 5 then [Flag(Overtrading, if n < 10 then SeverityWarning else SeverityCritical, OvertradingMessage(n))]
    else []
  }

  /** The overtrading flag fires iff five trades are recent; its severity splits at ten and its message holds the count. */
  lemma OvertradingFlagIff(n: nat)
    ensures |OvertradingFlags(n)| <= 1
    ensures OvertradingFlags(n) != [] <==> n >= 5
    ensures OvertradingFlags(n) != [] ==>
      && OvertradingFlags(n)[0].kind == Overtrading
      && (OvertradingFlags(n)[0].severity == SeverityWarning <==> n < 10)
      && Text.Contains(OvertradingFlags(n)[0].message, Text.NatToString(n))
  {
    if n >= 5 {
      Text.ContainsConcat("High frequency detected: ", Text.NatToString(n), " trades in the last hour.");
    }
  }

  /** Only trades with a parseable open time are counted, and never more than the trades given. */
  lemma {:induction false} CountRecentBounds(ts: seq<TradeRecord>, now: int)
    ensures CountRecent(ts, now) <= |ts|
    ensures (forall k | 0 <= k < |ts| :: ParseTime(ts[k].openTime).None?) ==> CountRecent(ts, now) == 0
    ensures (forall k | 0 <= k < |ts| :: IsRecent(ts[k], now)) ==> CountRecent(ts, now) == |ts|
  {
    if ts != [] {
      CountRecentBounds(ts[..|ts| - 1], now);
    }
  }

  // ---------------------------------------------------------------------------
  // 2. Ordering by open time, descending
  // ---------------------------------------------------------------------------

  /** The sort key: the parsed open time, or `datetime.min` when there is none. */
  function SortKey(t: TradeRecord): Instant
  {
    match ParseTime(t.openTime)
    case Some(x) => x
    case None => 0
  }

  /** `sorted(trades, key=open time, reverse=True)`. */
  function SortByOpenTimeDesc(ts: seq<TradeRecord>): (r: seq<TradeRecord>)
    ensures |r| == |ts|
    ensures multiset(r) == multiset(ts)
  {
    StableSort.SortPermutes(SortKey, ts);
    StableSort.SortDesc(SortKey, ts)
  }

  /**
   * The order of the scan: open times never increase, trades that share an open time
   * keep their input order, and trades without a parseable open time (sorted as
   * `datetime.min`) come after every dated trade.
   */
  lemma SortByOpenTimeDescCorrect(ts: seq<TradeRecord>, k: Instant)
    ensures var r := SortByOpenTimeDesc(ts);
      && (forall a, b | 0 <= a < b < |r| :: SortKey(r[a]) >= SortKey(r[b]))
      && StableSort.WithKey(SortKey, r, k) == StableSort.WithKey(SortKey, ts, k)
      && (forall a, b | 0 <= a < b < |r| && ParseTime(r[a].openTime).None? :: SortKey(r[b]) == 0)
  {
    StableSort.SortDescending(SortKey, ts);
    StableSort.SortIsStable(SortKey, ts, k);
  }

  // ---------------------------------------------------------------------------
  // 3. Revenge-trade scan
  // ---------------------------------------------------------------------------

  /**
   * The revenge pattern at position `i` of the sorted list: the earlier trade (at `i+1`)
   * lost, both times are known, the later one opened within ten minutes of the earlier
   * one's close and with a larger volume.
   */
  predicate RevengeAt(s: seq<TradeRecord>, i: nat)
    requires i + 1 < |s|
  {
    var current, previous := s[i], s[i + 1];
    && previous.profit.Some? && previous.profit.value < 0.0
    && ParseTime(previous.closeTime).Some? && ParseTime(current.openTime).Some?
    && ParseTime(current.openTime).value - ParseTime(previous.closeTime).value < RevengeWindow
    && current.volume > previous.volume
  }

  predicate HasRevenge(s: seq<TradeRecord>)
  {
    exists i: nat | i + 1 < |s| :: RevengeAt(s, i)
  }

  /** The scan stops at the first adjacent pair that shows the pattern. */
  method ScanRevenge(s: seq<TradeRecord>) returns (found: bool, at: nat)
    ensures found <==> HasRevenge(s)
    ensures found ==> at + 1 < |s| && RevengeAt(s, at) && forall j: nat | j < at :: !RevengeAt(s, j)
  {
    found, at := false, 0;
    var i: nat := 0;
    while i + 1 < |s|
      invariant forall j: nat | j < i && j + 1 < |s| :: !RevengeAt(s, j)
      invariant !found
    {
      var current, previous := s[i], s[i + 1];
      var pProfit := previous.profit;
      var pClose := ParseTime(previous.closeTime);
      var cOpen := ParseTime(current.openTime);
      if pProfit.Some? && pProfit.value < 0.0 && pClose.Some? && cOpen.Some? {
        if cOpen.value - pClose.value < RevengeWindow && current.volume > previous.volume {
          assert RevengeAt(s, i);
          found, at := true, i;
          break;
        }
      }
      i := i + 1;
    }
  }

  const RevengeMessage: string := "Revenge trading pattern: Aggressive re-entry with increased volume after a loss."

  function RevengeFlags(s: seq<TradeRecord>): seq<Flag>
  {
    if HasRevenge(s) then [Flag(RevengeTrading, SeverityCritical, RevengeMessage)] else []
  }

  // ---------------------------------------------------------------------------
  // 4. Session buckets
  // ---------------------------------------------------------------------------

  const SessionNames: set<string> := {"London", "NY", "Asia"}

  /** Number of trades tagged exactly `name`. */
  function BucketCount(ts: seq<TradeRecord>, name: string): nat
  {
    if ts == [] then 0
    else BucketCount(ts[..|ts| - 1], name) + (if ts[|ts| - 1].session == Some(name) then 1 else 0)
  }

  /** Sum of the known profits of the trades tagged exactly `name`. */
  function BucketProfit(ts: seq<TradeRecord>, name: string): real
  {
    if ts == [] then 0.0
    else
      var t := ts[|ts| - 1];
      BucketProfit(ts[..|ts| - 1], name) + (if t.session == Some(name) && t.profit.Some? then t.profit.value else 0.0)
  }

  predicate BucketsHold(buckets: map<string, SessionStats>, ts: seq<TradeRecord>)
  {
    && buckets.Keys == SessionNames
    && forall name | name in SessionNames :: buckets[name] == SessionStats(BucketCount(ts, name), BucketProfit(ts, name))
  }

  /** The bucket loop: each trade with a known session tag adds to its bucket; other tags are skipped. */
  method AccumulateSessions(ts: seq<TradeRecord>) returns (buckets: map<string, SessionStats>)
    ensures BucketsHold(buckets, ts)
  {
    buckets := map["London" := SessionStats(0, 0.0), "NY" := SessionStats(0, 0.0), "Asia" := SessionStats(0, 0.0)];
    var i := 0;
    while i < |ts|
      invariant 0 <= i <= |ts|
      invariant BucketsHold(buckets, ts[..i])
    {
      assert ts[..i + 1][..i] == ts[..i];
      var session := ts[i].session;
      var profit := ts[i].profit;
      if session.Some? && session.value != "" && session.value in buckets {
        var b := buckets[session.value];
        var added := if profit.Some? && profit.value != 0.0 then profit.value else 0.0;
        buckets := buckets[session.value := SessionStats(b.count + 1, b.profit + added)];
      }
      i := i + 1;
    }
    assert ts[..|ts|] == ts;
  }

  /** `session_performance`: the buckets that received at least one trade. */
  function Performance(ts: seq<TradeRecord>): map<string, SessionStats>
  {
    map name | name in SessionNames && BucketCount(ts, name) > 0 :: SessionStats(BucketCount(ts, name), BucketProfit(ts, name))
  }

  /** Keys are among the three bucket names, and each reported count is the positive number of exactly-tagged trades. */
  lemma PerformanceShape(ts: seq<TradeRecord>)
    ensures Performance(ts).Keys <= SessionNames
    ensures forall name | name in SessionNames ::
      (name in Performance(ts) <==> exists k | 0 <= k < |ts| :: ts[k].session == Some(name))
    ensures forall name | name in Performance(ts) ::
      Performance(ts)[name].count == BucketCount(ts, name) > 0
  {
    forall name | name in SessionNames
      ensures BucketCount(ts, name) > 0 <==> exists k | 0 <= k < |ts| :: ts[k].session == Some(name)
    {
      BucketCountPositive(ts, name);
    }
  }

  lemma {:induction false} BucketCountPositive(ts: seq<TradeRecord>, name: string)
    ensures BucketCount(ts, name) > 0 <==> exists k | 0 <= k < |ts| :: ts[k].session == Some(name)
  {
    if ts != [] {
      var init := ts[..|ts| - 1];
      BucketCountPositive(init, name);
      if exists k | 0 <= k < |init| :: init[k].session == Some(name) {
        var k :| 0 <= k < |init| && init[k].session == Some(name);
        assert ts[k] == init[k];
      }
      if exists k | 0 <= k < |ts| :: ts[k].session == Some(name) {
        var k :| 0 <= k < |ts| && ts[k].session == Some(name);
        if k < |init| {
          assert init[k] == ts[k];
        }
      }
    }
  }

  /** A tag other than the three bucket names, such as the evaluator's "New York", is never bucketed. */
  lemma {:induction false} ForeignTagIgnored(ts: seq<TradeRecord>, t: TradeRecord)
    requires t.session.None? || t.session.value !in SessionNames
    ensures Performance(ts + [t]) == Performance(ts)
  {
    assert (ts + [t])[..|ts|] == ts;
    forall name | name in SessionNames
      ensures BucketCount(ts + [t], name) == BucketCount(ts, name)
      ensures BucketProfit(ts + [t], name) == BucketProfit(ts, name)
    {
    }
  }

  /** A trade the evaluator tagged in its New York band is never counted by the analyser. */
  lemma EvaluatorNewYorkNeverBucketed(hour: int, ts: seq<TradeRecord>, t: TradeRecord)
    requires 16 <= hour < 22 && t.session == Some(Risk.SessionTag(hour))
    ensures Performance(ts + [t]) == Performance(ts)
  {
    assert Risk.SessionTag(hour) == "New York";
    ForeignTagIgnored(ts, t);
  }

  // ---------------------------------------------------------------------------
  // 5. The analysis
  // ---------------------------------------------------------------------------

  function Score(flagCount: nat): int
  {
    if 100 - flagCount * 20 > 0 then 100 - flagCount * 20 else 0
  }

  /** The report of `analyze_behavior` for trades `ts` at time `now`. */
  function Analyze(ts: seq<TradeRecord>, now: int): Analysis
  {
    if ts == [] then Analysis([], map[], 100)
    else
      var flags := OvertradingFlags(CountRecent(ts, now)) + RevengeFlags(SortByOpenTimeDesc(ts));
      Analysis(flags, Performance(ts), Score(|flags|))
  }

  /** `analyze_behavior`; `now` stands for `datetime.utcnow()`. */
  method AnalyzeBehavior(ts: seq<TradeRecord>, now: int) returns (r: Analysis)
    ensures r == Analyze(ts, now)
  {
    if ts == [] {
      return Analysis([], map[], 100);
    }
    var flags: seq<Flag> := [];

    var recent := CountRecentTrades(ts, now);
    if recent >= 5 {
      flags := flags + [Flag(Overtrading, if recent < 10 then SeverityWarning else SeverityCritical, OvertradingMessage(recent))];
    }

    var sorted := SortByOpenTimeDesc(ts);
    var found, _ := ScanRevenge(sorted);
    if found {
      flags := flags + [Flag(RevengeTrading, SeverityCritical, RevengeMessage)];
    }

    var buckets := AccumulateSessions(ts);
    var performance := map name | name in buckets && buckets[name].count > 0 :: buckets[name];
    assert performance == Performance(ts);

    r := Analysis(flags, performance, Score(|flags|));
  }

  /** Empty input gives no flags, no sessions and the full score. */
  lemma EmptyAnalysis(now: int)
    ensures Analyze([], now) == Analysis([], map[], 100)
  {
  }

  /** At most one flag of each kind is raised, so the score is 100, 80 or 60 and matches the flag count. */
  lemma ScoreRange(ts: seq<TradeRecord>, now: int)
    ensures |Analyze(ts, now).flags| <= 2
    ensures Analyze(ts, now).score in {60, 80, 100}
    ensures Analyze(ts, now).score == 100 - 20 * |Analyze(ts, now).flags|
    ensures forall i, j | 0 <= i < j < |Analyze(ts, now).flags| ::
      Analyze(ts, now).flags[i].kind != Analyze(ts, now).flags[j].kind
  {
    if ts != [] {
      OvertradingFlagIff(CountRecent(ts, now));
    }
  }

  /** A revenge flag is raised exactly when some adjacent pair of the sorted trades shows the pattern. */
  lemma RevengeFlagIff(ts: seq<TradeRecord>, now: int)
    requires ts != []
    ensures (exists k | 0 <= k < |Analyze(ts, now).flags| :: Analyze(ts, now).flags[k].kind == RevengeTrading)
        <==> HasRevenge(SortByOpenTimeDesc(ts))
  {
    var a := Analyze(ts, now);
    OvertradingFlagIff(CountRecent(ts, now));
    if HasRevenge(SortByOpenTimeDesc(ts)) {
      assert a.flags[|a.flags| - 1].kind == RevengeTrading;
    } else {
      assert a.flags == OvertradingFlags(CountRecent(ts, now));
    }
  }

  /** With fewer than two trades there is no pair to scan. */
  lemma SingleTradeNoRevenge(ts: seq<TradeRecord>)
    requires |ts| < 2
    ensures !HasRevenge(SortByOpenTimeDesc(ts))
  {
  }
}

/**
 * One bot cycle (`run_once`): load the ledger, index the fetched markets,
 * evaluate open positions, scan the first 50 markets with both detectors,
 * then try at most the first 3 signals, logging each decision. The market
 * fetch and the per-market history fetch are inputs; a history that could not
 * be fetched is an absent key. Saving the ledger is the `saved` field of the
 * outcome, and the decision-log lines are the `log` field.
 */
module Cycle {
  import opened Wrappers
  import opened Markets
  import opened Detectors
  import opened Portfolios

  /** Only the first 50 listed markets (the listing is ordered by volume) are scanned. */
  const SCAN_LIMIT: nat := 50
  /** `min_edge_threshold` in percentage points; surfaced signals must beat it strictly. */
  const MIN_EDGE_PERCENT: real := 5.0
  const MAX_TRADES_PER_RUN: nat := 3
  const MIN_CONFIDENCE: real := 0.5
  /** Below this capital the cycle stops trying signals. */
  const CAPITAL_FLOOR: real := 100.0

  /** One decision-log record. The timestamp is the cycle's clock in epoch seconds. */
  datatype Decision = Decision(
    timestamp: int,
    marketId: string,
    marketTitle: string,
    edgeType: EdgeType,
    edgePercent: real,
    side: Side,
    confidence: real,
    executed: bool)

  function LogEntry(s: Signal, executed: bool, now: int): Decision {
    Decision(now, s.marketId, s.marketTitle, s.edgeType, s.edgePercent, s.side, s.confidence, executed)
  }

  /** Python's `s[:n]`. */
  function Prefix<T>(s: seq<T>, n: nat): (r: seq<T>)
    ensures |r| <= n && |r| <= |s|
    ensures r == s[..|r|]
    ensures |s| <= n ==> r == s
    ensures |r| == if |s| <= n then |s| else n
  {
    if |s| <= n then s else s[..n]
  }

  // ---------------------------------------------------------------------
  // analyze_markets
  // ---------------------------------------------------------------------

  /** The history fetched for a market; a failed fetch gives an empty history. */
  function HistoryOf(histories: map<string, seq<HistoryPoint>>, id: string): seq<HistoryPoint> {
    if id in histories then histories[id] else []
  }

  /** A detector result is surfaced when there is one and its edge beats the threshold strictly. */
  function Surfaced(o: Option<Signal>): (r: seq<Signal>)
    ensures |r| <= 1
    ensures forall s :: s in r ==> s.edgePercent > MIN_EDGE_PERCENT
    ensures r != [] ==> o.Some? && r == [o.value]
    ensures o.Some? && o.value.edgePercent > MIN_EDGE_PERCENT ==> r == [o.value]
  {
    if o.Some? && o.value.edgePercent > MIN_EDGE_PERCENT then [o.value] else []
  }

  /** The surfaced signals of one market: mean reversion first, then resolution arbitrage. */
  function MarketSignals(m: Market, histories: map<string, seq<HistoryPoint>>, now: int): (r: seq<Signal>)
    ensures |r| <= 2
    ensures forall s :: s in r ==> s.edgePercent > MIN_EDGE_PERCENT && s.marketId == m.id
    ensures var mr := DetectMeanReversion(m, HistoryOf(histories, m.id), now);
      var ra := DetectResolutionArbitrage(m, now);
      var keepMr := mr.Some? && mr.value.edgePercent > MIN_EDGE_PERCENT;
      var keepRa := ra.Some? && ra.value.edgePercent > MIN_EDGE_PERCENT;
      |r| == (if keepMr then 1 else 0) + (if keepRa then 1 else 0)
      && (keepMr ==> r[0] == mr.value)
      && (keepRa ==> r[|r| - 1] == ra.value)
  {
    Surfaced(DetectMeanReversion(m, HistoryOf(histories, m.id), now)) + Surfaced(DetectResolutionArbitrage(m, now))
  }

  /** The surfaced signals of every market in `ms`, in market order. */
  function Scan(ms: seq<Market>, histories: map<string, seq<HistoryPoint>>, now: int): seq<Signal> {
    if ms == [] then []
    else Scan(ms[..|ms| - 1], histories, now) + MarketSignals(ms[|ms| - 1], histories, now)
  }

  /** Every scanned signal beats the edge threshold and comes from one of the scanned markets. */
  lemma {:induction false} ScanSignals(ms: seq<Market>, histories: map<string, seq<HistoryPoint>>, now: int)
    ensures |Scan(ms, histories, now)| <= 2 * |ms|
    ensures forall s :: s in Scan(ms, histories, now) ==>
      s.edgePercent > MIN_EDGE_PERCENT && exists k :: 0 <= k < |ms| && ms[k].id == s.marketId
  {
    if ms != [] {
      var init := ms[..|ms| - 1];
      ScanSignals(init, histories, now);
      forall s | s in Scan(ms, histories, now)
        ensures s.edgePercent > MIN_EDGE_PERCENT && exists k :: 0 <= k < |ms| && ms[k].id == s.marketId
      {
        if s in Scan(init, histories, now) {
          var k :| 0 <= k < |init| && init[k].id == s.marketId;
          assert ms[k] == init[k];
        } else {
          assert ms[|ms| - 1].id == s.marketId;
        }
      }
    }
  }

  /** Nothing surfaced for a scanned market is lost: every signal one of its detectors surfaces is in the scan. */
  lemma {:induction false} ScanComplete(ms: seq<Market>, k: nat, s: Signal, histories: map<string, seq<HistoryPoint>>, now: int)
    requires k < |ms| && s in MarketSignals(ms[k], histories, now)
    ensures s in Scan(ms, histories, now)
  {
    var init := ms[..|ms| - 1];
    if k < |ms| - 1 {
      assert init[k] == ms[k];
      ScanComplete(init, k, s, histories, now);
    }
  }

  /** Scanning keeps market order: one more market appends exactly its surfaced signals. */
  lemma ScanExtend(ms: seq<Market>, i: nat, histories: map<string, seq<HistoryPoint>>, now: int)
    requires i < |ms|
    ensures Scan(ms[..i + 1], histories, now) == Scan(ms[..i], histories, now) + MarketSignals(ms[i], histories, now)
  {
    assert ms[..i + 1][..i] == ms[..i];
  }

  /** `analyze_markets` as a value: the scan of the first 50 markets. */
  function Analyze(ms: seq<Market>, histories: map<string, seq<HistoryPoint>>, now: int): seq<Signal> {
    Scan(Prefix(ms, SCAN_LIMIT), histories, now)
  }

  /**
   * A resolution-arbitrage result survives the edge filter exactly when the
   * market closes within 7 days and its probability lies in [0.40, 0.45) or
   * (0.55, 0.60]: the detector alone accepts [0.40, 0.60].
   */
  lemma ArbitrageSurfaced(m: Market, now: int)
    ensures Surfaced(DetectResolutionArbitrage(m, now)) != [] <==>
      0.0 <= DaysToClose(m, now) <= ARB_HORIZON_DAYS
      && ((0.4 <= m.currentProbability < 0.45) || (0.55 < m.currentProbability <= 0.6))
  {
  }

  /** A mean-reversion result survives the edge filter exactly when its edge exceeds 0.05 strictly. */
  lemma MeanReversionSurfaced(m: Market, history: seq<HistoryPoint>, now: int)
    ensures var r := DetectMeanReversion(m, history, now);
      Surfaced(r) != [] <==> r.Some? && Edge(RecentProbs(history, now)) > 0.05
  {
  }

  /** Every analyzed signal beats the edge threshold and comes from one of the first 50 markets. */
  lemma AnalyzeSignals(markets: seq<Market>, histories: map<string, seq<HistoryPoint>>, now: int)
    ensures |Analyze(markets, histories, now)| <= 2 * SCAN_LIMIT
    ensures forall s :: s in Analyze(markets, histories, now) ==>
      s.edgePercent > MIN_EDGE_PERCENT
      && exists k :: 0 <= k < |markets| && k < SCAN_LIMIT && markets[k].id == s.marketId
  {
    var scanned := Prefix(markets, SCAN_LIMIT);
    ScanSignals(scanned, histories, now);
    forall s | s in Analyze(markets, histories, now)
      ensures exists k :: 0 <= k < |markets| && k < SCAN_LIMIT && markets[k].id == s.marketId
    {
      var k :| 0 <= k < |scanned| && scanned[k].id == s.marketId;
      assert markets[k] == scanned[k];
    }
  }

  /** Every signal surfaced for one of the first 50 markets is returned by the analysis. */
  lemma AnalyzeComplete(markets: seq<Market>, k: nat, s: Signal, histories: map<string, seq<HistoryPoint>>, now: int)
    requires k < |markets| && k < SCAN_LIMIT && s in MarketSignals(markets[k], histories, now)
    ensures s in Analyze(markets, histories, now)
  {
    var scanned := Prefix(markets, SCAN_LIMIT);
    assert scanned[k] == markets[k];
    ScanComplete(scanned, k, s, histories, now);
  }

  /** The body of the scanning loop for one market: both detectors, each result kept if it beats the threshold. */
  method ScanMarket(market: Market, histories: map<string, seq<HistoryPoint>>, now: int)
    returns (found: seq<Signal>)
    ensures found == MarketSignals(market, histories, now)
  {
    found := [];
    var history := HistoryOf(histories, market.id);
    var signal := DetectMeanReversion(market, history, now);
    if signal.Some? && signal.value.edgePercent > MIN_EDGE_PERCENT {
      found := found + [signal.value];
    }
    signal := DetectResolutionArbitrage(market, now);
    if signal.Some? && signal.value.edgePercent > MIN_EDGE_PERCENT {
      found := found + [signal.value];
    }
  }

  /**
   * The scanning loop of `analyze_markets` over the first 50 markets.
   */
  method AnalyzeMarkets(markets: seq<Market>, histories: map<string, seq<HistoryPoint>>, now: int)
    returns (signals: seq<Signal>)
    ensures signals == Analyze(markets, histories, now)
  {
    var scanned := Prefix(markets, SCAN_LIMIT);
    signals := [];
    for i := 0 to |scanned|
      invariant signals == Scan(scanned[..i], histories, now)
    {
      ScanExtend(scanned, i, histories, now);
      var found := ScanMarket(scanned[i], histories, now);
      signals := signals + found;
    }
    assert scanned[..|scanned|] == scanned;
  }

  // ---------------------------------------------------------------------
  // The market index
  // ---------------------------------------------------------------------

  /** `{m.id: m for m in markets}`: every listed id maps to the last market listed with it. */
  function IndexById(ms: seq<Market>): (index: map<string, Market>)
    ensures forall k :: 0 <= k < |ms| ==> ms[k].id in index
    ensures forall id :: id in index ==> index[id] in ms && index[id].id == id
  {
    if ms == [] then map[]
    else
      var init := ms[..|ms| - 1];
      var last := ms[|ms| - 1];
      var index := IndexById(init)[last.id := last];
      assert forall k :: 0 <= k < |ms| - 1 ==> ms[k] == init[k];
      index
  }

  lemma {:induction false} IndexByIdLastWins(ms: seq<Market>, k: nat)
    requires k < |ms|
    requires forall j :: k < j < |ms| ==> ms[j].id != ms[k].id
    ensures IndexById(ms)[ms[k].id] == ms[k]
  {
    if k < |ms| - 1 {
      var init := ms[..|ms| - 1];
      IndexByIdLastWins(init, k);
    }
  }

  // ---------------------------------------------------------------------
  // The trading loop of run_once
  // ---------------------------------------------------------------------

  datatype Round = Round(ledger: Ledger, log: seq<Decision>, executed: nat)

  /**
   * The trading loop on a ledger value: a signal below the confidence gate
   * is logged as not executed and skipped; otherwise the loop stops when
   * capital is below the floor, and else the trade is attempted and logged
   * as executed only when a position was created.
   */
  function TradeRound(l: Ledger, signals: seq<Signal>, now: int): Round
    decreases |signals|
  {
    if signals == [] then Round(l, [], 0)
    else
      var s := signals[0];
      if s.confidence < MIN_CONFIDENCE then
        var rest := TradeRound(l, signals[1..], now);
        Round(rest.ledger, [LogEntry(s, false, now)] + rest.log, rest.executed)
      else if l.capital < CAPITAL_FLOOR then Round(l, [], 0)
      else
        var e := Execute(l, s, now);
        var rest := TradeRound(e.ledger, signals[1..], now);
        if e.created.Some? then Round(rest.ledger, [LogEntry(s, true, now)] + rest.log, rest.executed + 1)
        else rest
  }

  /** The round from signal `k` on, in terms of what happens to that signal. */
  lemma TradeRoundStep(l: Ledger, signals: seq<Signal>, k: nat, now: int)
    requires k < |signals|
    ensures var s := signals[k];
      var here := TradeRound(l, signals[k..], now);
      if s.confidence < MIN_CONFIDENCE then
        var rest := TradeRound(l, signals[k + 1..], now);
        here == Round(rest.ledger, [LogEntry(s, false, now)] + rest.log, rest.executed)
      else if l.capital < CAPITAL_FLOOR then here == Round(l, [], 0)
      else
        var e := Execute(l, s, now);
        var rest := TradeRound(e.ledger, signals[k + 1..], now);
        here == if e.created.Some? then Round(rest.ledger, [LogEntry(s, true, now)] + rest.log, rest.executed + 1) else rest
  {
    assert signals[k..][0] == signals[k];
    assert signals[k..][1..] == signals[k + 1..];
  }

  /** The records of executed trades, in log order. */
  function ExecutedEntries(log: seq<Decision>): (r: seq<Decision>)
    ensures |r| <= |log|
    ensures forall d :: d in r ==> d in log && d.executed
    ensures forall d :: d in log && d.executed ==> d in r
  {
    if log == [] then []
    else (if log[0].executed then [log[0]] else []) + ExecutedEntries(log[1..])
  }

  /**
   * What a round logs: at most one record per signal, in signal order, each
   * one marked executed exactly when its confidence passes the gate;
   * exactly `executed` of them are marked executed.
   */
  lemma {:induction false} RoundLog(l: Ledger, signals: seq<Signal>, now: int)
    ensures var r := TradeRound(l, signals, now);
      |r.log| <= |signals| && r.executed <= |signals|
      && (forall d :: d in r.log ==> (d.executed <==> d.confidence >= MIN_CONFIDENCE) && d.timestamp == now)
      && (forall d :: d in r.log ==> exists s :: s in signals && d == LogEntry(s, d.executed, now))
    decreases |signals|
  {
    if signals != [] {
      var s := signals[0];
      var tail := signals[1..];
      if s.confidence < MIN_CONFIDENCE {
        RoundLog(l, tail, now);
      } else if l.capital >= CAPITAL_FLOOR {
        RoundLog(Execute(l, s, now).ledger, tail, now);
      }
      var r := TradeRound(l, signals, now);
      forall d | d in r.log ensures exists s' :: s' in signals && d == LogEntry(s', d.executed, now) {
        if d == LogEntry(s, d.executed, now) {
          assert s in signals;
        } else {
          var s' :| s' in tail && d == LogEntry(s', d.executed, now);
          assert s' in signals;
        }
      }
    }
  }

  /** A round only appends open positions: the closed list, the realised P&L and the creation time are untouched. */
  lemma {:induction false} RoundAppends(l: Ledger, signals: seq<Signal>, now: int)
    ensures var r := TradeRound(l, signals, now);
      l.positions <= r.ledger.positions
      && r.ledger.closedPositions == l.closedPositions
      && r.ledger.totalPnl == l.totalPnl && r.ledger.createdAt == l.createdAt
    decreases |signals|
  {
    if signals != [] {
      var s := signals[0];
      if s.confidence < MIN_CONFIDENCE {
        RoundAppends(l, signals[1..], now);
      } else if l.capital >= CAPITAL_FLOOR {
        var e := Execute(l, s, now);
        RoundAppends(e.ledger, signals[1..], now);
        assert l.positions <= e.ledger.positions;
      }
    }
  }

  /** The executed records of a log that starts with `d`. */
  lemma ExecutedEntriesCons(d: Decision, log: seq<Decision>)
    ensures d.executed ==> ExecutedEntries([d] + log) == [d] + ExecutedEntries(log)
    ensures !d.executed ==> ExecutedEntries([d] + log) == ExecutedEntries(log)
  {
    assert ([d] + log)[1..] == log;
    assert [] + ExecutedEntries(log) == ExecutedEntries(log);
  }

  /**
   * `after` is `before` followed by one open position per record of
   * `entries`, in order, each on its record's market and side.
   */
  predicate AppendedFor(before: seq<Position>, after: seq<Position>, entries: seq<Decision>) {
    |before| <= |after|
    && |after| - |before| == |entries|
    && forall j :: 0 <= j < |entries| ==> Matches(after[|before| + j], entries[j])
  }

  /** An opened position records the market and side of its decision. */
  predicate Matches(p: Position, d: Decision) {
    p.status == Open && p.marketId == d.marketId && p.side == d.side
  }

  lemma AppendedForCons(before: seq<Position>, p: Position, after: seq<Position>, d: Decision, entries: seq<Decision>)
    requires AppendedFor(before + [p], after, entries)
    requires Matches(p, d)
    requires before + [p] <= after
    ensures AppendedFor(before, after, [d] + entries)
  {
    var n := |before|;
    var all := [d] + entries;
    assert after[n] == (before + [p])[n] == p;
    forall j | 0 <= j < |all|
      ensures Matches(after[n + j], all[j])
    {
      if j > 0 {
        assert all[j] == entries[j - 1];
        assert after[n + j] == after[|before + [p]| + (j - 1)];
      }
    }
  }

  /**
   * A round appends exactly one open position per executed record, in
   * order, on that record's market and side.
   */
  lemma {:induction false} RoundPositions(l: Ledger, signals: seq<Signal>, now: int)
    ensures var r := TradeRound(l, signals, now);
      AppendedFor(l.positions, r.ledger.positions, ExecutedEntries(r.log))
      && |ExecutedEntries(r.log)| == r.executed
    decreases |signals|
  {
    if signals != [] {
      var s := signals[0];
      var tail := signals[1..];
      assert signals == [s] + tail;
      if s.confidence < MIN_CONFIDENCE {
        RoundPositions(l, tail, now);
        RoundPositionsSkipped(l, s, tail, now);
      } else if l.capital >= CAPITAL_FLOOR {
        RoundPositions(Execute(l, s, now).ledger, tail, now);
        RoundPositionsExecuted(l, s, tail, now);
      }
    }
  }

  /** The step of `RoundPositions` for a signal below the confidence gate. */
  lemma RoundPositionsSkipped(l: Ledger, s: Signal, tail: seq<Signal>, now: int)
    requires s.confidence < MIN_CONFIDENCE
    requires var rest := TradeRound(l, tail, now);
      AppendedFor(l.positions, rest.ledger.positions, ExecutedEntries(rest.log))
      && |ExecutedEntries(rest.log)| == rest.executed
    ensures var r := TradeRound(l, [s] + tail, now);
      AppendedFor(l.positions, r.ledger.positions, ExecutedEntries(r.log))
      && |ExecutedEntries(r.log)| == r.executed
  {
    var rest := TradeRound(l, tail, now);
    assert ([s] + tail)[1..] == tail;
    assert TradeRound(l, [s] + tail, now) == Round(rest.ledger, [LogEntry(s, false, now)] + rest.log, rest.executed);
    ExecutedEntriesCons(LogEntry(s, false, now), rest.log);
  }

  /** The step of `RoundPositions` for a signal that passes both gates. */
  lemma RoundPositionsExecuted(l: Ledger, s: Signal, tail: seq<Signal>, now: int)
    requires s.confidence >= MIN_CONFIDENCE && l.capital >= CAPITAL_FLOOR
    requires var rest := TradeRound(Execute(l, s, now).ledger, tail, now);
      AppendedFor(Execute(l, s, now).ledger.positions, rest.ledger.positions, ExecutedEntries(rest.log))
      && |ExecutedEntries(rest.log)| == rest.executed
    ensures var r := TradeRound(l, [s] + tail, now);
      AppendedFor(l.positions, r.ledger.positions, ExecutedEntries(r.log))
      && |ExecutedEntries(r.log)| == r.executed
  {
    var e := Execute(l, s, now);
    var rest := TradeRound(e.ledger, tail, now);
    assert ([s] + tail)[1..] == tail;
    assert TradeRound(l, [s] + tail, now)
      == if e.created.Some? then Round(rest.ledger, [LogEntry(s, true, now)] + rest.log, rest.executed + 1) else rest;
    if e.created.Some? {
      var entry := LogEntry(s, true, now);
      ExecutedEntriesCons(entry, rest.log);
      RoundAppends(e.ledger, tail, now);
      AppendedForCons(l.positions, e.created.value, rest.ledger.positions, entry, ExecutedEntries(rest.log));
    }
  }

  /** A round keeps capital + open stakes - realised P&L. */
  lemma {:induction false} RoundPreservesBasis(l: Ledger, signals: seq<Signal>, now: int)
    ensures Basis(TradeRound(l, signals, now).ledger) == Basis(l)
    decreases |signals|
  {
    if signals != [] {
      var s := signals[0];
      if s.confidence < MIN_CONFIDENCE {
        RoundPreservesBasis(l, signals[1..], now);
      } else if l.capital >= CAPITAL_FLOOR {
        ExecutePreservesBasis(l, s, now);
        RoundPreservesBasis(Execute(l, s, now).ledger, signals[1..], now);
      }
    }
  }

  /**
   * Trades never overdraw: capital stays non-negative, and once it is below
   * the floor no further position is opened.
   */
  lemma {:induction false} RoundCapital(l: Ledger, signals: seq<Signal>, now: int)
    ensures l.capital >= 0.0 ==> TradeRound(l, signals, now).ledger.capital >= 0.0
    ensures l.capital < CAPITAL_FLOOR ==>
      TradeRound(l, signals, now).ledger == l && TradeRound(l, signals, now).executed == 0
    decreases |signals|
  {
    if signals != [] {
      var s := signals[0];
      if s.confidence < MIN_CONFIDENCE {
        RoundCapital(l, signals[1..], now);
      } else if l.capital >= CAPITAL_FLOOR {
        RoundCapital(Execute(l, s, now).ledger, signals[1..], now);
      }
    }
  }

  /**
   * The round stops at the capital floor: some signal that passes the
   * confidence gate is met while capital is below 100.
   */
  predicate Stops(l: Ledger, signals: seq<Signal>, now: int)
    decreases |signals|
  {
    signals != []
    && if signals[0].confidence < MIN_CONFIDENCE then Stops(l, signals[1..], now)
       else l.capital < CAPITAL_FLOOR || Stops(Execute(l, signals[0], now).ledger, signals[1..], now)
  }

  /** A round over `a + b` that does not stop within `a` runs `a`, then `b` from the ledger `a` leaves. */
  lemma {:induction false} RoundSplit(l: Ledger, a: seq<Signal>, b: seq<Signal>, now: int)
    requires !Stops(l, a, now)
    ensures var ra := TradeRound(l, a, now);
      var rb := TradeRound(ra.ledger, b, now);
      TradeRound(l, a + b, now) == Round(rb.ledger, ra.log + rb.log, ra.executed + rb.executed)
    decreases |a|
  {
    if a == [] {
      assert a + b == b;
    } else {
      var s := a[0];
      assert (a + b)[0] == s;
      assert (a + b)[1..] == a[1..] + b;
      if s.confidence < MIN_CONFIDENCE {
        RoundSplit(l, a[1..], b, now);
        var entry := LogEntry(s, false, now);
        var rest := TradeRound(l, a[1..], now);
        var rb := TradeRound(rest.ledger, b, now);
        assert [entry] + (rest.log + rb.log) == ([entry] + rest.log) + rb.log;
      } else {
        var e := Execute(l, s, now);
        RoundSplit(e.ledger, a[1..], b, now);
        if e.created.Some? {
          var entry := LogEntry(s, true, now);
          var rest := TradeRound(e.ledger, a[1..], now);
          var rb := TradeRound(rest.ledger, b, now);
          assert [entry] + (rest.log + rb.log) == ([entry] + rest.log) + rb.log;
        }
      }
    }
  }

  /** Signal `s` passes both gates on ledger `l` and its stake fits in the capital. */
  predicate Trades(l: Ledger, s: Signal) {
    s.confidence >= MIN_CONFIDENCE && l.capital >= CAPITAL_FLOOR && Stake(l, s) <= l.capital
  }

  /**
   * What happens to a signal the round reaches (no stop before it): the log
   * so far is kept, and then a low-confidence signal is logged as not
   * executed; a signal met below the capital floor ends the round with
   * nothing more logged or traded; a signal that passes both gates and whose
   * stake fits opens a position and is logged as executed; a signal whose
   * trade is refused because its stake exceeds the capital leaves the
   * ledger, the log and the count as they were.
   */
  lemma RoundReaches(l: Ledger, signals: seq<Signal>, k: nat, now: int)
    requires k < |signals| && !Stops(l, signals[..k], now)
    ensures var before := TradeRound(l, signals[..k], now);
      var lk := before.ledger;
      var s := signals[k];
      var r := TradeRound(l, signals, now);
      before.log <= r.log
      && (s.confidence < MIN_CONFIDENCE ==> |r.log| > |before.log| && r.log[|before.log|] == LogEntry(s, false, now))
      && (s.confidence >= MIN_CONFIDENCE && lk.capital < CAPITAL_FLOOR ==>
            r.log == before.log && r.ledger == lk && r.executed == before.executed)
      && (Trades(lk, s) ==>
            |r.log| > |before.log| && r.log[|before.log|] == LogEntry(s, true, now)
            && r.executed > before.executed && |r.ledger.positions| > |lk.positions|)
      && (s.confidence >= MIN_CONFIDENCE && lk.capital >= CAPITAL_FLOOR && Stake(lk, s) > lk.capital ==>
            TradeRound(l, signals[..k + 1], now) == before)
  {
    assert signals == signals[..k] + signals[k..];
    RoundSplit(l, signals[..k], signals[k..], now);
    assert signals[..k + 1] == signals[..k] + [signals[k]];
    RoundSplit(l, signals[..k], [signals[k]], now);
    var lk := TradeRound(l, signals[..k], now).ledger;
    TradeRoundStep(lk, signals, k, now);
    if Trades(lk, signals[k]) {
      RoundAppends(Execute(lk, signals[k], now).ledger, signals[k + 1..], now);
    }
  }

  // ---------------------------------------------------------------------
  // run_once
  // ---------------------------------------------------------------------

  /** `Aborted`: no market was fetched and nothing was saved. `Completed`: the saved ledger and the cycle's log. */
  datatype Outcome = Aborted | Completed(saved: Ledger, log: seq<Decision>, closed: nat, executed: nat)

  /** A cycle can run: the loaded ledger has no priced position entered at probability 0. */
  predicate Runnable(stored: Option<Ledger>, markets: seq<Market>, now: int) {
    markets != [] ==> Priced(Loaded(stored, now).positions, IndexById(markets))
  }

  /** `run_once` as a value. */
  function RunCycle(stored: Option<Ledger>, markets: seq<Market>, histories: map<string, seq<HistoryPoint>>, now: int): (o: Outcome)
    requires Runnable(stored, markets, now)
    ensures o.Aborted? <==> markets == []
  {
    if markets == [] then Aborted
    else
      var ev := Evaluate(Loaded(stored, now), IndexById(markets), now);
      var signals := Analyze(markets, histories, now);
      var round := TradeRound(ev.ledger, Prefix(signals, MAX_TRADES_PER_RUN), now);
      Completed(round.ledger, round.log, |ev.taken|, round.executed)
  }

  /** A completed cycle keeps capital + open stakes - realised P&L of the loaded ledger. */
  lemma CyclePreservesBasis(stored: Option<Ledger>, markets: seq<Market>, histories: map<string, seq<HistoryPoint>>, now: int)
    requires Runnable(stored, markets, now)
    ensures var o := RunCycle(stored, markets, histories, now);
      o.Completed? ==> Basis(o.saved) == Basis(Loaded(stored, now))
  {
    if markets != [] {
      var l := Loaded(stored, now);
      var index := IndexById(markets);
      SweepPreservesBasis(l, 0, index, now);
      var batch := Prefix(Analyze(markets, histories, now), MAX_TRADES_PER_RUN);
      RoundPreservesBasis(Evaluate(l, index, now).ledger, batch, now);
    }
  }

  /**
   * A completed cycle logs at most 3 decisions, each for a signal that beat
   * the edge threshold, marked executed exactly when it passed the
   * confidence gate; and it opens exactly one position per executed record.
   */
  lemma CycleLog(stored: Option<Ledger>, markets: seq<Market>, histories: map<string, seq<HistoryPoint>>, now: int)
    requires Runnable(stored, markets, now)
    ensures var o := RunCycle(stored, markets, histories, now);
      o.Completed? ==>
        |o.log| <= MAX_TRADES_PER_RUN && o.executed <= MAX_TRADES_PER_RUN
        && |ExecutedEntries(o.log)| == o.executed
        && (forall d :: d in o.log ==> d.edgePercent > MIN_EDGE_PERCENT && (d.executed <==> d.confidence >= MIN_CONFIDENCE))
  {
    if markets != [] {
      var evaluated := Evaluate(Loaded(stored, now), IndexById(markets), now).ledger;
      var signals := Analyze(markets, histories, now);
      var batch := Prefix(signals, MAX_TRADES_PER_RUN);
      var round := TradeRound(evaluated, batch, now);
      RoundLog(evaluated, batch, now);
      RoundPositions(evaluated, batch, now);
      AnalyzeSignals(markets, histories, now);
      forall d | d in round.log ensures d.edgePercent > MIN_EDGE_PERCENT {
        var s :| s in batch && d == LogEntry(s, d.executed, now);
        assert s in signals;
      }
    }
  }

  /**
   * Every one of the first 3 analyzed signals that the cycle reaches is
   * accounted for: below the confidence gate it is logged as not executed;
   * past both gates with a stake that fits it is logged as executed.
   */
  lemma CycleReaches(stored: Option<Ledger>, markets: seq<Market>, histories: map<string, seq<HistoryPoint>>, now: int)
    requires Runnable(stored, markets, now)
    ensures markets != [] ==>
      var ev := Evaluate(Loaded(stored, now), IndexById(markets), now).ledger;
      var batch := Prefix(Analyze(markets, histories, now), MAX_TRADES_PER_RUN);
      var o := RunCycle(stored, markets, histories, now);
      forall k :: 0 <= k < |batch| && !Stops(ev, batch[..k], now) ==>
        (batch[k].confidence < MIN_CONFIDENCE ==> LogEntry(batch[k], false, now) in o.log)
        && (Trades(TradeRound(ev, batch[..k], now).ledger, batch[k]) ==> LogEntry(batch[k], true, now) in o.log)
  {
    if markets != [] {
      var ev := Evaluate(Loaded(stored, now), IndexById(markets), now).ledger;
      var batch := Prefix(Analyze(markets, histories, now), MAX_TRADES_PER_RUN);
      forall k | 0 <= k < |batch| && !Stops(ev, batch[..k], now)
        ensures var log := TradeRound(ev, batch, now).log;
          (batch[k].confidence < MIN_CONFIDENCE ==> LogEntry(batch[k], false, now) in log)
          && (Trades(TradeRound(ev, batch[..k], now).ledger, batch[k]) ==> LogEntry(batch[k], true, now) in log)
      {
        RoundReaches(ev, batch, k, now);
      }
    }
  }

  /**
   * The trading loop of `run_once` on the live ledger: each signal below the
   * confidence gate is logged and skipped; the loop stops once capital is
   * below the floor; otherwise the trade is attempted and logged only when
   * a position was created.
   */
  method Trade(portfolio: Portfolio, batch: seq<Signal>, now: int) returns (log: seq<Decision>, executed: nat)
    modifies portfolio
    ensures Round(portfolio.State(), log, executed) == TradeRound(old(portfolio.State()), batch, now)
  {
    ghost var round := TradeRound(portfolio.State(), batch, now);
    executed := 0;
    log := [];
    var k := 0;
    while k < |batch|
      invariant 0 <= k <= |batch|
      invariant TradeRound(portfolio.State(), batch[k..], now).ledger == round.ledger
      invariant log + TradeRound(portfolio.State(), batch[k..], now).log == round.log
      invariant executed + TradeRound(portfolio.State(), batch[k..], now).executed == round.executed
    {
      var signal := batch[k];
      TradeRoundStep(portfolio.State(), batch, k, now);
      if signal.confidence < MIN_CONFIDENCE {
        log := log + [LogEntry(signal, false, now)];
        k := k + 1;
        continue;
      }
      if portfolio.capital < CAPITAL_FLOOR {
        break;
      }
      var position := portfolio.ExecuteTrade(signal, now);
      if position.Some? {
        executed := executed + 1;
        log := log + [LogEntry(signal, true, now)];
      }
      k := k + 1;
    }
  }

  /**
   * `run_once`: load the ledger, stop if no market was fetched, otherwise
   * evaluate open positions, scan, try at most the first 3 signals and save.
   */
  method RunOnce(stored: Option<Ledger>, marketsList: seq<Market>, histories: map<string, seq<HistoryPoint>>, now: int)
    returns (outcome: Outcome)
    requires Runnable(stored, marketsList, now)
    ensures outcome == RunCycle(stored, marketsList, histories, now)
    ensures outcome.Aborted? <==> marketsList == []
  {
    var portfolio := new Portfolio.Load(stored, now);
    if marketsList == [] {
      return Aborted;
    }
    var marketsDict := IndexById(marketsList);
    var closed := portfolio.EvaluatePositions(marketsDict, now);
    var signals := AnalyzeMarkets(marketsList, histories, now);
    var log, executed := Trade(portfolio, Prefix(signals, MAX_TRADES_PER_RUN), now);
    outcome := Completed(portfolio.State(), log, closed, executed);
  }
}

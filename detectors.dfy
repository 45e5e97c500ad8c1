/**
 * The two implemented edge detectors. Each is a pure threshold function from
 * a market snapshot (and, for mean reversion, its probability history) to an
 * optional trade signal. The clock is the parameter `now` (epoch seconds).
 * The third edge type named in the source, correlation lag, has no
 * implementation there and has none here.
 */
module Detectors {
  import opened Wrappers
  import opened Numbers
  import opened Markets

  datatype Side = Yes | No

  /** Which detector produced a signal. */
  datatype EdgeType = MeanReversion | ResolutionArb

  /** A believed mispricing; `edgePercent` is in percentage points. */
  datatype Signal = Signal(
    marketId: string,
    marketTitle: string,
    currentProb: real,
    edgeType: EdgeType,
    fairValue: real,
    edgePercent: real,
    side: Side,
    confidence: real)

  /** One history sample; `None` is a missing key. `createdTime` is in epoch milliseconds. */
  datatype HistoryPoint = HistoryPoint(createdTime: Option<int>, prob: Option<real>)

  const MIN_HISTORY: int := 10
  const MIN_RECENT: int := 5
  const MIN_MOVE: real := 0.10
  const MIN_REVERSION_EDGE: real := 0.05
  const MAX_REVERSION_CONFIDENCE: real := 0.8
  const ARB_HORIZON_DAYS: real := 7.0
  const ARB_LOW: real := 0.4
  const ARB_HIGH: real := 0.6
  const ARB_FAIR_VALUE: real := 0.5
  const ARB_CONFIDENCE: real := 0.5

  // ---------------------------------------------------------------------
  // Mean reversion
  // ---------------------------------------------------------------------

  /** A sample counts as recent when it is less than a day old (future samples count too). */
  predicate IsRecent(h: HistoryPoint, now: int) {
    now - MillisToSeconds(GetOr(h.createdTime, 0)) < SECONDS_PER_DAY
  }

  /** The recent samples, in history order. */
  function Recent(history: seq<HistoryPoint>, now: int): (r: seq<HistoryPoint>)
    ensures |r| <= |history|
    ensures forall h :: h in r ==> h in history && IsRecent(h, now)
    ensures forall h :: h in history && IsRecent(h, now) ==> h in r
  {
    if history == [] then []
    else
      var init := history[..|history| - 1];
      var last := history[|history| - 1];
      assert history == init + [last];
      Recent(init, now) + (if IsRecent(last, now) then [last] else [])
  }

  /** The window keeps history order: the window of a concatenation is the concatenation of the windows. */
  lemma {:induction false} RecentAppend(a: seq<HistoryPoint>, b: seq<HistoryPoint>, now: int)
    ensures Recent(a + b, now) == Recent(a, now) + Recent(b, now)
    decreases |b|
  {
    if b == [] {
      assert a + b == a;
    } else {
      var init := b[..|b| - 1];
      var last := b[|b| - 1];
      var tail := if IsRecent(last, now) then [last] else [];
      assert (a + b)[..|a + b| - 1] == a + init;
      assert (a + b)[|a + b| - 1] == last;
      assert Recent(a + b, now) == Recent(a + init, now) + tail;
      RecentAppend(a, init, now);
    }
  }

  /** The probability of each sample, 0.5 where it is missing. */
  function Probs(points: seq<HistoryPoint>): (ps: seq<real>)
    ensures |ps| == |points|
    ensures forall k :: 0 <= k < |points| ==> ps[k] == GetOr(points[k].prob, 0.5)
  {
    if points == [] then [] else Probs(points[..|points| - 1]) + [GetOr(points[|points| - 1].prob, 0.5)]
  }

  /** Sum of ps[k] * (k + 1): the k-th sample weighs k + 1. */
  function WeightedSum(ps: seq<real>): real {
    if ps == [] then 0.0 else WeightedSum(ps[..|ps| - 1]) + ps[|ps| - 1] * (|ps| as real)
  }

  /** Sum of the weights 1, 2, ..., n. */
  function WeightTotal(n: nat): nat {
    if n == 0 then 0 else WeightTotal(n - 1) + n
  }

  lemma {:induction false} WeightTotalClosedForm(n: nat)
    ensures 2 * WeightTotal(n) == n * (n + 1)
  {
    if n > 0 {
      WeightTotalClosedForm(n - 1);
    }
  }

  /** The weight total is at least the number of samples, so it is positive for a non-empty window. */
  lemma {:induction false} WeightTotalAtLeast(n: nat)
    ensures WeightTotal(n) >= n
  {
    if n > 0 {
      WeightTotalAtLeast(n - 1);
    }
  }

  /** The recency-weighted mean that serves as the reversion target. */
  function FairValue(ps: seq<real>): real
    requires |ps| > 0
  {
    WeightTotalAtLeast(|ps|);
    WeightedSum(ps) / (WeightTotal(|ps|) as real)
  }

  /** Scaling by a non-negative factor keeps an inequality. */
  lemma ScaleLe(a: real, b: real, c: real)
    requires a <= b && 0.0 <= c
    ensures a * c <= b * c
  {
    assert b * c - a * c == (b - a) * c;
  }

  /** Dividing by a positive total keeps a lower and an upper bound. */
  lemma DivideBounds(s: real, w: real, lo: real, hi: real)
    requires w > 0.0 && lo * w <= s <= hi * w
    ensures lo <= s / w <= hi
  {
    var q := s / w;
    assert s == q * w;
    assert (q - lo) * w == s - lo * w;
    assert (hi - q) * w == hi * w - s;
  }

  /** Bounds on the samples bound the weighted sum. */
  lemma {:induction false} WeightedSumBounds(ps: seq<real>, lo: real, hi: real)
    requires forall k :: 0 <= k < |ps| ==> lo <= ps[k] <= hi
    ensures lo * (WeightTotal(|ps|) as real) <= WeightedSum(ps) <= hi * (WeightTotal(|ps|) as real)
  {
    if ps != [] {
      var n := |ps|;
      var init := ps[..n - 1];
      forall k | 0 <= k < |init| ensures lo <= init[k] <= hi {
        assert init[k] == ps[k];
      }
      WeightedSumBounds(init, lo, hi);
      WeightTotalLast(n);
      StepBounds(lo, hi, WeightedSum(init), WeightTotal(n - 1) as real, ps[n - 1], n as real,
                 WeightTotal(n) as real, WeightedSum(ps));
    }
  }

  lemma WeightTotalLast(n: nat)
    requires n > 0
    ensures (WeightTotal(n) as real) == (WeightTotal(n - 1) as real) + (n as real)
  {
  }

  /** One more weighted sample keeps the bounds: the arithmetic step of `WeightedSumBounds`. */
  lemma StepBounds(lo: real, hi: real, s: real, w: real, x: real, nr: real, total: real, sum: real)
    requires lo * w <= s <= hi * w && lo <= x <= hi && 0.0 <= nr
    requires total == w + nr && sum == s + x * nr
    ensures lo * total <= sum <= hi * total
  {
    ScaleLe(lo, x, nr);
    ScaleLe(x, hi, nr);
    assert lo * total == lo * w + lo * nr;
    assert hi * total == hi * w + hi * nr;
  }

  /** The fair value is a weighted average: it lies between the smallest and the largest sample. */
  lemma FairValueBetween(ps: seq<real>, lo: real, hi: real)
    requires |ps| > 0
    requires forall k :: 0 <= k < |ps| ==> lo <= ps[k] <= hi
    ensures lo <= FairValue(ps) <= hi
  {
    WeightedSumBounds(ps, lo, hi);
    WeightTotalAtLeast(|ps|);
    var w := WeightTotal(|ps|) as real;
    assert FairValue(ps) == WeightedSum(ps) / w;
    DivideBounds(WeightedSum(ps), w, lo, hi);
  }

  function RecentProbs(history: seq<HistoryPoint>, now: int): seq<real> {
    Probs(Recent(history, now))
  }

  /** Size of the move across the window: last recent sample against the first. */
  function Move(ps: seq<real>): real
    requires |ps| > 0
  {
    Abs(ps[|ps| - 1] - ps[0])
  }

  /** Distance of the last recent sample from the fair value. */
  function Edge(ps: seq<real>): real
    requires |ps| > 0
  {
    Abs(ps[|ps| - 1] - FairValue(ps))
  }

  /**
   * `detect_mean_reversion`. It fires exactly when the history has at least
   * 10 samples, at least 5 of them recent, the move is at least 0.10 and the
   * edge at least 0.05. The signal's current probability is the last recent
   * sample, not the snapshot's probability.
   */
  function DetectMeanReversion(m: Market, history: seq<HistoryPoint>, now: int): (r: Option<Signal>)
    ensures r.Some? <==>
      |history| >= MIN_HISTORY
      && |Recent(history, now)| >= MIN_RECENT
      && Move(RecentProbs(history, now)) >= MIN_MOVE
      && Edge(RecentProbs(history, now)) >= MIN_REVERSION_EDGE
    ensures r.Some? ==>
      var ps := RecentProbs(history, now);
      var s := r.value;
      s.marketId == m.id && s.marketTitle == m.title && s.edgeType == MeanReversion
      && s.currentProb == ps[|ps| - 1]
      && s.fairValue == FairValue(ps)
      && s.edgePercent == 100.0 * Abs(s.currentProb - s.fairValue)
      && s.edgePercent >= 5.0
      && (s.side == No <==> s.currentProb > s.fairValue)
      && s.confidence == Min(MAX_REVERSION_CONFIDENCE, 2.0 * Abs(s.currentProb - s.fairValue))
      && 0.1 <= s.confidence <= MAX_REVERSION_CONFIDENCE
  {
    if |history| < MIN_HISTORY then None
    else
      var recent := Recent(history, now);
      if |recent| < MIN_RECENT then None
      else
        var probs := Probs(recent);
        var first := probs[0];
        var current := probs[|probs| - 1];
        var move := Abs(current - first);
        if move < MIN_MOVE then None
        else
          var fair := FairValue(probs);
          var edge := Abs(current - fair);
          if edge < MIN_REVERSION_EDGE then None
          else
            var side := if current > fair then No else Yes;
            Some(Signal(m.id, m.title, current, MeanReversion, fair, edge * 100.0, side,
                        Min(MAX_REVERSION_CONFIDENCE, edge * 2.0)))
  }

  /**
   * When every sample's probability (0.5 standing in for a missing one) lies
   * in [lo, hi], so do the signal's current probability and fair value, and
   * the edge is at most the width of that range.
   */
  lemma MeanReversionWithinRange(m: Market, history: seq<HistoryPoint>, now: int, lo: real, hi: real)
    requires forall h :: h in history ==> lo <= GetOr(h.prob, 0.5) <= hi
    ensures var r := DetectMeanReversion(m, history, now);
      r.Some? ==>
        lo <= r.value.currentProb <= hi && lo <= r.value.fairValue <= hi
        && r.value.edgePercent <= 100.0 * (hi - lo)
  {
    var r := DetectMeanReversion(m, history, now);
    if r.Some? {
      var recent := Recent(history, now);
      var ps := Probs(recent);
      forall k | 0 <= k < |ps| ensures lo <= ps[k] <= hi {
        assert recent[k] in history;
      }
      FairValueBetween(ps, lo, hi);
    }
  }

  // ---------------------------------------------------------------------
  // Resolution arbitrage
  // ---------------------------------------------------------------------

  /** Days until the market closes, as a true (non-integer) division. */
  function DaysToClose(m: Market, now: int): real {
    ((m.closesAt - now) as real) / (SECONDS_PER_DAY as real)
  }

  /**
   * `detect_resolution_arbitrage`: fires exactly on markets that close within
   * the next 7 days and are priced in [0.4, 0.6]; it then bets toward 0.5.
   */
  function DetectResolutionArbitrage(m: Market, now: int): (r: Option<Signal>)
    ensures r.Some? <==>
      0.0 <= DaysToClose(m, now) <= ARB_HORIZON_DAYS
      && ARB_LOW <= m.currentProbability <= ARB_HIGH
    ensures r.Some? ==>
      var s := r.value;
      s.marketId == m.id && s.marketTitle == m.title && s.edgeType == ResolutionArb
      && s.currentProb == m.currentProbability
      && s.fairValue == 0.5 && s.confidence == 0.5
      && s.edgePercent == 100.0 * Abs(0.5 - m.currentProbability)
      && 0.0 <= s.edgePercent <= 10.0
      && (s.side == Yes <==> m.currentProbability < 0.5)
  {
    var timeToClose := DaysToClose(m, now);
    if timeToClose < 0.0 then None
    else if timeToClose > ARB_HORIZON_DAYS then None
    else if m.currentProbability < ARB_LOW || m.currentProbability > ARB_HIGH then None
    else
      var side := if m.currentProbability < 0.5 then Yes else No;
      Some(Signal(m.id, m.title, m.currentProbability, ResolutionArb, ARB_FAIR_VALUE,
                  Abs(0.5 - m.currentProbability) * 100.0, side, ARB_CONFIDENCE))
  }

  /** The day window in whole seconds: between now and 7 days from now, both ends included. */
  lemma ArbitrageWindowInSeconds(m: Market, now: int)
    ensures 0.0 <= DaysToClose(m, now) <= ARB_HORIZON_DAYS <==>
      now <= m.closesAt <= now + 7 * SECONDS_PER_DAY
  {
    var d := (m.closesAt - now) as real;
    assert DaysToClose(m, now) == d / 86400.0;
    if 0.0 <= d / 86400.0 <= 7.0 {
      assert d == (d / 86400.0) * 86400.0;
    }
  }

  /**
   * A listed market whose record had no close time gets a close time in 1970
   * (the one-year default is in seconds but divided as milliseconds), so it
   * never yields a resolution-arbitrage signal at any realistic clock.
   */
  lemma MissingCloseTimeNeverArbitraged(r: MarketRecord, now: int)
    requires r.closeTime.None?
    requires now >= 31568
    ensures ToMarket(r, now).closesAt < now
    ensures DetectResolutionArbitrage(ToMarket(r, now), now).None?
  {
    var m := ToMarket(r, now);
    assert m.closesAt == (now + 31536000) / 1000;
    ArbitrageWindowInSeconds(m, now);
  }
}

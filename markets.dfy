/**
 * Market snapshots and the filter that turns one listing response of the
 * market API into the snapshots the bot scans (the record loop of
 * `get_markets`). The HTTP fetch and the JSON decoding are not modelled: the
 * listing arrives as a sequence of already-decoded records whose keys may be
 * missing.
 */
module Markets {
  import opened Wrappers

  const SECONDS_PER_DAY: int := 86400
  /** Markets that traded less than this in 24 hours are not listed. */
  const MIN_VOLUME_24H: real := 100.0
  /** The only market type the bot consumes. */
  const BINARY_MARKET: string := "BINARY_MARKET"

  /** One market at fetch time; timestamps are epoch seconds. */
  datatype Market = Market(
    id: string,
    title: string,
    currentProbability: real,
    volume24h: real,
    createdAt: int,
    closesAt: int,
    isResolved: bool,
    resolution: Option<string>,
    lastUpdated: int)

  /** One decoded listing record; `None` is a missing key. Times are epoch milliseconds. */
  datatype MarketRecord = MarketRecord(
    id: Option<string>,
    marketType: Option<string>,
    question: Option<string>,
    probability: Option<real>,
    volume24h: Option<real>,
    isResolved: Option<bool>,
    createdTime: Option<int>,
    closeTime: Option<int>)

  /** `int(ms / 1000)`: milliseconds to seconds, truncating toward zero. */
  function MillisToSeconds(ms: int): (s: int)
    ensures 0 <= ms ==> 0 <= s && s * 1000 <= ms < s * 1000 + 1000
    ensures ms < 0 ==> s <= 0 && s * 1000 - 1000 < ms <= s * 1000
  {
    if ms >= 0 then ms / 1000 else -((-ms) / 1000)
  }

  /** A record survives the filter: binary, not resolved, enough volume. */
  predicate Admitted(r: MarketRecord) {
    r.marketType == Some(BINARY_MARKET)
    && !GetOr(r.isResolved, false)
    && GetOr(r.volume24h, 0.0) >= MIN_VOLUME_24H
  }

  /**
   * The snapshot built from an admitted record, with the same defaults as the
   * source. A missing close time defaults to one year from `now` in seconds,
   * which is then divided by 1000 as if it were milliseconds.
   */
  function ToMarket(r: MarketRecord, now: int): (m: Market)
    ensures m.lastUpdated == now && m.resolution.None?
    ensures m.volume24h == GetOr(r.volume24h, 0.0)
    ensures m.isResolved == GetOr(r.isResolved, false)
  {
    Market(
      GetOr(r.id, ""),
      GetOr(r.question, "Unknown"),
      GetOr(r.probability, 0.5),
      GetOr(r.volume24h, 0.0),
      MillisToSeconds(GetOr(r.createdTime, 0)),
      MillisToSeconds(GetOr(r.closeTime, now + SECONDS_PER_DAY * 365)),
      GetOr(r.isResolved, false),
      None,
      now)
  }

  /** The snapshots listed from `records`, in record order. */
  function Listed(records: seq<MarketRecord>, now: int): (ms: seq<Market>)
    ensures |ms| <= |records|
    ensures forall m :: m in ms ==> m.volume24h >= MIN_VOLUME_24H && !m.isResolved && m.lastUpdated == now
  {
    if records == [] then []
    else
      var last := records[|records| - 1];
      Listed(records[..|records| - 1], now) + (if Admitted(last) then [ToMarket(last, now)] else [])
  }

  /** A snapshot is listed exactly when some admitted record produces it. */
  lemma {:induction false} ListedExactly(records: seq<MarketRecord>, now: int, m: Market)
    ensures m in Listed(records, now) <==> exists r :: r in records && Admitted(r) && ToMarket(r, now) == m
  {
    if records != [] {
      var init := records[..|records| - 1];
      var last := records[|records| - 1];
      ListedExactly(init, now, m);
      assert records == init + [last];
      if m in Listed(records, now) && m !in Listed(init, now) {
        assert Admitted(last) && ToMarket(last, now) == m;
      }
      if exists r :: r in records && Admitted(r) && ToMarket(r, now) == m {
        var r :| r in records && Admitted(r) && ToMarket(r, now) == m;
        if r != last {
          assert r in init;
        }
      }
    }
  }

  /** The listing keeps record order and multiplicity: the listing of a concatenation is the concatenation of the listings. */
  lemma {:induction false} ListedAppend(a: seq<MarketRecord>, b: seq<MarketRecord>, now: int)
    ensures Listed(a + b, now) == Listed(a, now) + Listed(b, now)
    decreases |b|
  {
    if b == [] {
      assert a + b == a;
    } else {
      var init := b[..|b| - 1];
      var last := b[|b| - 1];
      var tail := if Admitted(last) then [ToMarket(last, now)] else [];
      assert (a + b)[..|a + b| - 1] == a + init;
      assert (a + b)[|a + b| - 1] == last;
      assert Listed(a + b, now) == Listed(a + init, now) + tail;
      ListedAppend(a, init, now);
    }
  }

  /** The record loop of `get_markets`. */
  method GetMarkets(records: seq<MarketRecord>, now: int) returns (markets: seq<Market>)
    ensures markets == Listed(records, now)
    ensures forall m :: m in markets ==> m.volume24h >= MIN_VOLUME_24H && !m.isResolved
  {
    markets := [];
    for i := 0 to |records|
      invariant markets == Listed(records[..i], now)
    {
      assert records[..i + 1][..i] == records[..i];
      var r := records[i];
      if r.marketType != Some(BINARY_MARKET) {
        continue;
      }
      if GetOr(r.isResolved, false) {
        continue;
      }
      if GetOr(r.volume24h, 0.0) < MIN_VOLUME_24H {
        continue;
      }
      markets := markets + [ToMarket(r, now)];
    }
    assert records[..|records|] == records;
  }
}

/**
 * Fractional-Kelly position sizing: `position_size_kelly`. The Kelly
 * percentage of a binary market with symmetric payoff is taken as twice the
 * edge, scaled by the configured Kelly fraction, then clamped to at most the
 * maximum position size and at least the minimum stake (in that order).
 */
module Sizing {
  import opened Numbers

  const KELLY_FRACTION: real := 0.25
  const MAX_POSITION_SIZE: real := 1000.0
  const MIN_STAKE: real := 10.0

  /** The unclamped fractional-Kelly stake. */
  function RawStake(edge: real, capital: real): real {
    capital * (2.0 * edge) * KELLY_FRACTION
  }

  /** The stake for an edge (a fraction, not percentage points) and the available capital. */
  function KellySize(edge: real, capital: real): (stake: real)
    ensures MIN_STAKE <= stake <= MAX_POSITION_SIZE
    ensures MIN_STAKE <= RawStake(edge, capital) <= MAX_POSITION_SIZE ==> stake == RawStake(edge, capital)
    ensures RawStake(edge, capital) > MAX_POSITION_SIZE ==> stake == MAX_POSITION_SIZE
    ensures RawStake(edge, capital) < MIN_STAKE ==> stake == MIN_STAKE
  {
    var capped := Min(RawStake(edge, capital), MAX_POSITION_SIZE);
    Max(capped, MIN_STAKE)
  }

  /** With non-negative capital, a larger edge never yields a smaller stake. */
  lemma KellyMonotoneInEdge(e1: real, e2: real, capital: real)
    requires e1 <= e2 && 0.0 <= capital
    ensures KellySize(e1, capital) <= KellySize(e2, capital)
  {
    var d := e2 - e1;
    assert 0.0 <= capital * d;
    assert RawStake(e2, capital) == RawStake(e1, capital) + capital * d * 0.5;
  }

  /** With a non-negative edge, more capital never yields a smaller stake. */
  lemma KellyMonotoneInCapital(edge: real, c1: real, c2: real)
    requires c1 <= c2 && 0.0 <= edge
    ensures KellySize(edge, c1) <= KellySize(edge, c2)
  {
    assert RawStake(edge, c2) - RawStake(edge, c1) == (c2 - c1) * edge * 0.5;
    assert 0.0 <= (c2 - c1) * edge;
  }

  /** An edge of 0.10 on 10000 of capital stakes 500 (quarter of twice the edge). */
  lemma KellyExample()
    ensures KellySize(0.10, 10000.0) == 500.0
  {
  }
}

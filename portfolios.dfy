/**
 * The paper-trading ledger: capital, open positions, closed positions and
 * realised profit and loss. The pure functions `Execute` and `Evaluate` say
 * what `execute_trade` and `evaluate_positions` do to a ledger value; the
 * class `Portfolio` holds the ledger that a run loads, mutates in place and
 * saves, and its methods are proved to follow those functions.
 */
module Portfolios {
  import opened Wrappers
  import opened Markets
  import opened Detectors
  import opened Sizing

  const INITIAL_CAPITAL: real := 10000.0
  /** Close when the unrealised P&L exceeds this fraction of the stake. */
  const TAKE_PROFIT: real := 0.02
  /** Close when the unrealised P&L falls below minus this fraction of the stake. */
  const STOP_LOSS: real := 0.03

  datatype Status = Open | Closed

  datatype Position = Position(
    marketId: string,
    marketTitle: string,
    side: Side,
    entryProb: real,
    size: real,
    entryTime: int,
    status: Status,
    exitProb: Option<real>,
    exitTime: Option<int>,
    pnl: Option<real>)

  /** The persisted portfolio record. */
  datatype Ledger = Ledger(
    capital: real,
    positions: seq<Position>,
    closedPositions: seq<Position>,
    totalPnl: real,
    createdAt: int)

  // ---------------------------------------------------------------------
  // Conservation
  // ---------------------------------------------------------------------

  /** Total stake of a list of positions. */
  function SumSizes(ps: seq<Position>): real {
    if ps == [] then 0.0 else ps[0].size + SumSizes(ps[1..])
  }

  /**
   * Capital plus the stakes still in the positions list, minus realised P&L.
   * Opening and closing positions move value between these terms only.
   */
  function Basis(l: Ledger): real {
    l.capital + SumSizes(l.positions) - l.totalPnl
  }

  lemma {:induction false} SumSizesAppend(a: seq<Position>, b: seq<Position>)
    ensures SumSizes(a + b) == SumSizes(a) + SumSizes(b)
  {
    if a != [] {
      assert (a + b)[1..] == a[1..] + b;
      SumSizesAppend(a[1..], b);
    } else {
      assert a + b == b;
    }
  }

  // ---------------------------------------------------------------------
  // Loading
  // ---------------------------------------------------------------------

  /** The ledger a first run starts from. */
  function InitialLedger(now: int): (l: Ledger)
    ensures l.positions == [] && l.closedPositions == []
    ensures l.capital == INITIAL_CAPITAL && Basis(l) == INITIAL_CAPITAL
    ensures l.createdAt == now
  {
    Ledger(INITIAL_CAPITAL, [], [], 0.0, now)
  }

  /** `load_portfolio`: the stored ledger when there is one, else the initial ledger. */
  function Loaded(stored: Option<Ledger>, now: int): Ledger {
    GetOr(stored, InitialLedger(now))
  }

  // ---------------------------------------------------------------------
  // execute_trade
  // ---------------------------------------------------------------------

  /** The stake for a signal: Kelly size of its edge, as a fraction, on the available capital. */
  function Stake(l: Ledger, s: Signal): real {
    KellySize(s.edgePercent / 100.0, l.capital)
  }

  datatype Execution = Execution(ledger: Ledger, created: Option<Position>)

  /**
   * `execute_trade`: refuse when the stake exceeds the capital; otherwise
   * take the stake out of capital and append one open position.
   */
  function Execute(l: Ledger, s: Signal, now: int): (e: Execution)
    ensures e.created.None? <==> Stake(l, s) > l.capital
    ensures e.created.None? ==> e.ledger == l
    ensures e.created.Some? ==>
      var p := e.created.value;
      p.marketId == s.marketId && p.marketTitle == s.marketTitle && p.side == s.side
      && p.entryProb == s.currentProb && p.size == Stake(l, s) && p.entryTime == now
      && p.status == Open && p.exitProb.None? && p.exitTime.None? && p.pnl.None?
      && e.ledger == l.(capital := l.capital - p.size, positions := l.positions + [p])
    ensures e.created.Some? ==>
      MIN_STAKE <= e.created.value.size <= MAX_POSITION_SIZE && e.ledger.capital >= 0.0
    ensures l.capital < MIN_STAKE ==> e.created.None?
  {
    var size := Stake(l, s);
    if size > l.capital then Execution(l, None)
    else
      var p := Position(s.marketId, s.marketTitle, s.side, s.currentProb, size, now, Open, None, None, None);
      Execution(l.(capital := l.capital - size, positions := l.positions + [p]), Some(p))
  }

  lemma ExecutePreservesBasis(l: Ledger, s: Signal, now: int)
    ensures Basis(Execute(l, s, now).ledger) == Basis(l)
  {
    var e := Execute(l, s, now);
    if e.created.Some? {
      SumSizesAppend(l.positions, [e.created.value]);
      assert SumSizes([e.created.value]) == e.created.value.size;
    }
  }

  // ---------------------------------------------------------------------
  // evaluate_positions
  // ---------------------------------------------------------------------

  /**
   * Unrealised P&L of a position at probability `cur`: the stake times the
   * relative move since entry, normalised by the entry probability.
   */
  function PnL(p: Position, cur: real): real
    requires p.entryProb != 0.0
  {
    var pct := if p.side == Yes then (cur - p.entryProb) / p.entryProb else (p.entryProb - cur) / p.entryProb;
    p.size * pct
  }

  /** Take profit above +2 % of the stake, stop loss below -3 %. */
  predicate Exits(pnl: real, size: real) {
    pnl > size * TAKE_PROFIT || pnl < -size * STOP_LOSS
  }

  /** An open position whose market is among the latest snapshots. */
  predicate Evaluable(p: Position, markets: map<string, Market>) {
    p.status == Open && p.marketId in markets
  }

  /** No position that evaluation prices has entry probability 0 (the source would divide by zero). */
  predicate Priced(ps: seq<Position>, markets: map<string, Market>) {
    forall p :: p in ps && Evaluable(p, markets) ==> p.entryProb != 0.0
  }

  function PnLAt(p: Position, markets: map<string, Market>): real
    requires Evaluable(p, markets) && p.entryProb != 0.0
  {
    PnL(p, markets[p.marketId].currentProbability)
  }

  predicate Closable(p: Position, markets: map<string, Market>) {
    Evaluable(p, markets) && p.entryProb != 0.0 && Exits(PnLAt(p, markets), p.size)
  }

  /** The closed record of `p`: exit probability and time and the realised P&L filled in. */
  function Closing(p: Position, markets: map<string, Market>, now: int): (c: Position)
    requires Evaluable(p, markets) && p.entryProb != 0.0
  {
    p.(status := Closed, exitProb := Some(markets[p.marketId].currentProbability), exitTime := Some(now),
       pnl := Some(PnLAt(p, markets)))
  }

  /** Index of the first element equal to `x`. */
  function IndexOf(s: seq<Position>, x: Position): (j: nat)
    requires x in s
    ensures j < |s| && s[j] == x && x !in s[..j]
  {
    if s[0] == x then 0
    else
      assert s == [s[0]] + s[1..];
      var j := IndexOf(s[1..], x);
      assert s[..j + 1] == [s[0]] + s[1..][..j];
      1 + j
  }

  /**
   * Python's `list.remove(x)`: drop the first element equal to `x`, keeping
   * the order of the others; a list without `x` is returned unchanged.
   */
  function RemoveFirst(s: seq<Position>, x: Position): (r: seq<Position>)
    ensures x in s ==> |r| == |s| - 1 && multiset(r) == multiset(s) - multiset{x}
    ensures x in s ==> exists j :: 0 <= j < |s| && s[j] == x && x !in s[..j] && r == s[..j] + s[j + 1..]
    ensures x !in s ==> r == s
  {
    if x in s then
      var j := IndexOf(s, x);
      assert s == s[..j] + [x] + s[j + 1..];
      assert s[j] == x && x !in s[..j];
      s[..j] + s[j + 1..]
    else s
  }

  /** Removing the head drops exactly the head. */
  lemma RemoveFirstHead(x: Position, rest: seq<Position>)
    ensures RemoveFirst([x] + rest, x) == rest
  {
    assert IndexOf([x] + rest, x) == 0;
    assert ([x] + rest)[..0] + ([x] + rest)[1..] == rest;
  }

  /** Every element left by `RemoveFirst` was in the list. */
  lemma RemoveFirstSubset(s: seq<Position>, x: Position, y: Position)
    requires y in RemoveFirst(s, x)
    ensures y in s
  {
    if x in s {
      assert y in multiset(RemoveFirst(s, x));
    }
  }

  /** Marking the visited position closed and removing it keeps the list priced. */
  lemma PricedAfterClose(s: seq<Position>, i: nat, c: Position, markets: map<string, Market>)
    requires Priced(s, markets) && i < |s| && c.status == Closed
    ensures Priced(RemoveFirst(s[i := c], c), markets)
  {
    var updated := s[i := c];
    assert updated[i] == c;
    forall y | y in RemoveFirst(updated, c) && Evaluable(y, markets) ensures y.entryProb != 0.0 {
      RemoveFirstSubset(updated, c, y);
      var k :| 0 <= k < |updated| && updated[k] == y;
      assert y == s[k];
    }
  }

  datatype Evaluation = Evaluation(ledger: Ledger, taken: seq<Position>)

  /**
   * The rest of the evaluation pass from list index `i`, with the semantics
   * of a Python `for` loop over a list that the body shrinks: the element at
   * `i` is visited and the index advances by one whether or not the body
   * removed an element. A closed position is first updated in place, then the
   * first element equal to it is removed, so the element after it slides into
   * the visited slot and is skipped this pass. `taken` lists the positions
   * closed, as they were before closing.
   */
  function Sweep(l: Ledger, i: nat, markets: map<string, Market>, now: int): (e: Evaluation)
    requires Priced(l.positions, markets)
    decreases |l.positions| - i
  {
    if i >= |l.positions| then Evaluation(l, [])
    else
      var p := l.positions[i];
      if !Evaluable(p, markets) then Sweep(l, i + 1, markets, now)
      else if !Exits(PnLAt(p, markets), p.size) then Sweep(l, i + 1, markets, now)
      else
        var rest := Sweep(AfterClose(l, i, markets, now), i + 1, markets, now);
        Evaluation(rest.ledger, [p] + rest.taken)
  }

  /** `evaluate_positions` on a ledger value: one pass from the start of the list. */
  function Evaluate(l: Ledger, markets: map<string, Market>, now: int): Evaluation
    requires Priced(l.positions, markets)
  {
    Sweep(l, 0, markets, now)
  }

  // ---------------------------------------------------------------------
  // What an evaluation pass does
  // ---------------------------------------------------------------------

  predicate AllClosable(ps: seq<Position>, markets: map<string, Market>) {
    forall p :: p in ps ==> Closable(p, markets)
  }

  /** The closed records of positions taken by a pass, in order. */
  function Closings(ps: seq<Position>, markets: map<string, Market>, now: int): (cs: seq<Position>)
    requires AllClosable(ps, markets)
    ensures |cs| == |ps|
  {
    if ps == [] then []
    else
      assert ps[0] in ps;
      [Closing(ps[0], markets, now)] + Closings(ps[1..], markets, now)
  }

  /** What closing `ps` credits back to capital: each stake plus its P&L. */
  function Credits(ps: seq<Position>, markets: map<string, Market>): real
    requires AllClosable(ps, markets)
  {
    if ps == [] then 0.0
    else
      assert ps[0] in ps;
      ps[0].size + PnLAt(ps[0], markets) + Credits(ps[1..], markets)
  }

  /** The P&L realised by closing `ps`. */
  function Realised(ps: seq<Position>, markets: map<string, Market>): real
    requires AllClosable(ps, markets)
  {
    if ps == [] then 0.0
    else
      assert ps[0] in ps;
      PnLAt(ps[0], markets) + Realised(ps[1..], markets)
  }

  /** The ledger after closing the position at index `i` of the list. */
  function AfterClose(l: Ledger, i: nat, markets: map<string, Market>, now: int): (next: Ledger)
    requires Priced(l.positions, markets) && i < |l.positions|
    requires Closable(l.positions[i], markets)
    ensures Priced(next.positions, markets)
  {
    var p := l.positions[i];
    var c := Closing(p, markets, now);
    PricedAfterClose(l.positions, i, c, markets);
    Ledger(l.capital + p.size + PnLAt(p, markets), RemoveFirst(l.positions[i := c], c),
           l.closedPositions + [c], l.totalPnl + PnLAt(p, markets), l.createdAt)
  }

  /** One step of a pass, unfolded. */
  lemma SweepStep(l: Ledger, i: nat, markets: map<string, Market>, now: int)
    requires Priced(l.positions, markets) && i < |l.positions|
    ensures !Closable(l.positions[i], markets) ==> Sweep(l, i, markets, now) == Sweep(l, i + 1, markets, now)
    ensures Closable(l.positions[i], markets) ==>
      var rest := Sweep(AfterClose(l, i, markets, now), i + 1, markets, now);
      Sweep(l, i, markets, now) == Evaluation(rest.ledger, [l.positions[i]] + rest.taken)
  {
  }

  /**
   * The pass from index `i` in terms of the visit of that index: `next` is
   * the ledger after the visit and `took` the position it closed, if any.
   */
  lemma SweepVisited(l: Ledger, i: nat, markets: map<string, Market>, now: int, next: Ledger, took: Option<Position>)
    requires Priced(l.positions, markets) && i < |l.positions|
    requires took.Some? <==> Closable(l.positions[i], markets)
    requires took.Some? ==> took.value == l.positions[i] && next == AfterClose(l, i, markets, now)
    requires took.None? ==> next == l
    ensures Priced(next.positions, markets)
    ensures took.None? ==> Sweep(l, i, markets, now) == Sweep(next, i + 1, markets, now)
    ensures took.Some? ==>
      var rest := Sweep(next, i + 1, markets, now);
      Sweep(l, i, markets, now) == Evaluation(rest.ledger, [took.value] + rest.taken)
  {
    SweepStep(l, i, markets, now);
  }

  /** Closing one position removes it from the list, as a multiset. */
  lemma AfterCloseMultiset(l: Ledger, i: nat, markets: map<string, Market>, now: int)
    requires Priced(l.positions, markets) && i < |l.positions|
    requires Closable(l.positions[i], markets)
    ensures multiset(AfterClose(l, i, markets, now).positions) == multiset(l.positions) - multiset{l.positions[i]}
  {
    var p := l.positions[i];
    var c := Closing(p, markets, now);
    var updated := l.positions[i := c];
    assert updated[i] == c;
    assert multiset(updated) == multiset(l.positions) - multiset{p} + multiset{c};
  }

  /**
   * `e` took from `l` only positions that are open, priced and past the take
   * profit or stop loss, and removed exactly those from the positions list
   * (as a multiset).
   */
  predicate TakesFrom(l: Ledger, e: Evaluation, markets: map<string, Market>) {
    AllClosable(e.taken, markets)
    && multiset(l.positions) == multiset(e.ledger.positions) + multiset(e.taken)
  }

  /**
   * `e` accounts for what it took from `l`: the closed records of the taken
   * positions are appended to the closed list, in order; each stake plus its
   * P&L is credited to capital and each P&L is added to the realised total.
   */
  predicate AccountsFor(l: Ledger, e: Evaluation, markets: map<string, Market>, now: int) {
    AllClosable(e.taken, markets)
    && e.ledger.closedPositions == l.closedPositions + Closings(e.taken, markets, now)
    && e.ledger.capital == l.capital + Credits(e.taken, markets)
    && e.ledger.totalPnl == l.totalPnl + Realised(e.taken, markets)
    && e.ledger.createdAt == l.createdAt
  }

  lemma TakesStep(l: Ledger, i: nat, markets: map<string, Market>, now: int, rest: Evaluation)
    requires Priced(l.positions, markets) && i < |l.positions| && Closable(l.positions[i], markets)
    requires TakesFrom(AfterClose(l, i, markets, now), rest, markets)
    ensures TakesFrom(l, Evaluation(rest.ledger, [l.positions[i]] + rest.taken), markets)
  {
    var p := l.positions[i];
    var taken := [p] + rest.taken;
    assert AllClosable(taken, markets) by {
      forall q | q in taken ensures Closable(q, markets) {
        if q != p {
          assert q in rest.taken;
        }
      }
    }
    AfterCloseMultiset(l, i, markets, now);
    assert p in multiset(l.positions);
    MultisetRestore(multiset(l.positions), multiset(AfterClose(l, i, markets, now).positions), p,
                    multiset(rest.ledger.positions), multiset(rest.taken));
    assert multiset(taken) == multiset{p} + multiset(rest.taken);
  }

  /** Putting back an element that was taken out. */
  lemma MultisetRestore(whole: multiset<Position>, part: multiset<Position>, p: Position,
                        kept: multiset<Position>, others: multiset<Position>)
    requires p in whole && part == whole - multiset{p} && part == kept + others
    ensures whole == kept + (multiset{p} + others)
  {
    forall x ensures whole[x] == (kept + (multiset{p} + others))[x] {
      assert part[x] == kept[x] + others[x];
      if x == p {
        assert part[x] == whole[x] - 1;
      } else {
        assert part[x] == whole[x];
      }
    }
  }

  lemma AccountsStep(l: Ledger, i: nat, markets: map<string, Market>, now: int, rest: Evaluation)
    requires Priced(l.positions, markets) && i < |l.positions| && Closable(l.positions[i], markets)
    requires AccountsFor(AfterClose(l, i, markets, now), rest, markets, now)
    ensures AccountsFor(l, Evaluation(rest.ledger, [l.positions[i]] + rest.taken), markets, now)
  {
    var taken := [l.positions[i]] + rest.taken;
    assert taken[0] == l.positions[i] && taken[1..] == rest.taken;
  }

  /** Every pass takes what `TakesFrom` allows. */
  lemma {:induction false} SweepTakes(l: Ledger, i: nat, markets: map<string, Market>, now: int)
    requires Priced(l.positions, markets)
    ensures TakesFrom(l, Sweep(l, i, markets, now), markets)
    decreases |l.positions| - i
  {
    if i < |l.positions| {
      SweepStep(l, i, markets, now);
      if Closable(l.positions[i], markets) {
        var next := AfterClose(l, i, markets, now);
        SweepTakes(next, i + 1, markets, now);
        TakesStep(l, i, markets, now, Sweep(next, i + 1, markets, now));
      } else {
        SweepTakes(l, i + 1, markets, now);
      }
    }
  }

  /** Every pass accounts for what it takes. */
  lemma {:induction false} SweepAccounts(l: Ledger, i: nat, markets: map<string, Market>, now: int)
    requires Priced(l.positions, markets)
    ensures AccountsFor(l, Sweep(l, i, markets, now), markets, now)
    decreases |l.positions| - i
  {
    if i < |l.positions| {
      SweepStep(l, i, markets, now);
      if Closable(l.positions[i], markets) {
        var next := AfterClose(l, i, markets, now);
        SweepAccounts(next, i + 1, markets, now);
        AccountsStep(l, i, markets, now, Sweep(next, i + 1, markets, now));
      } else {
        SweepAccounts(l, i + 1, markets, now);
      }
    }
  }

  lemma {:induction false} SumSizesUpdate(s: seq<Position>, i: nat, c: Position)
    requires i < |s|
    ensures SumSizes(s[i := c]) == SumSizes(s) - s[i].size + c.size
  {
    if i > 0 {
      assert s[i := c][1..] == s[1..][i - 1 := c];
      SumSizesUpdate(s[1..], i - 1, c);
    }
  }

  /** Removing a position drops exactly its stake from the open total. */
  lemma SumSizesRemoveFirst(s: seq<Position>, x: Position)
    requires x in s
    ensures SumSizes(RemoveFirst(s, x)) == SumSizes(s) - x.size
  {
    var j := IndexOf(s, x);
    var front, back := s[..j], s[j + 1..];
    assert s == front + ([x] + back);
    assert RemoveFirst(s, x) == front + back;
    SumSizesAppend(front, [x] + back);
    SumSizesAppend([x], back);
    SumSizesAppend(front, back);
    assert SumSizes([x]) == x.size;
  }

  /** Every pass keeps capital + open stakes - realised P&L. */
  lemma {:induction false} SweepPreservesBasis(l: Ledger, i: nat, markets: map<string, Market>, now: int)
    requires Priced(l.positions, markets)
    ensures Basis(Sweep(l, i, markets, now).ledger) == Basis(l)
    decreases |l.positions| - i
  {
    if i < |l.positions| {
      SweepStep(l, i, markets, now);
      var p := l.positions[i];
      if Closable(p, markets) {
        var c := Closing(p, markets, now);
        var updated := l.positions[i := c];
        SweepPreservesBasis(AfterClose(l, i, markets, now), i + 1, markets, now);
        SumSizesUpdate(l.positions, i, c);
        assert updated[i] == c;
        SumSizesRemoveFirst(updated, c);
      } else {
        SweepPreservesBasis(l, i + 1, markets, now);
      }
    }
  }

  /**
   * A pass closes something exactly when some position from index `i` on is
   * closable; when it closes nothing it changes nothing.
   */
  lemma {:induction false} SweepClosesIffClosable(l: Ledger, i: nat, markets: map<string, Market>, now: int)
    requires Priced(l.positions, markets)
    ensures Sweep(l, i, markets, now).taken == [] <==>
      forall k :: i <= k < |l.positions| ==> !Closable(l.positions[k], markets)
    ensures Sweep(l, i, markets, now).taken == [] ==> Sweep(l, i, markets, now).ledger == l
    decreases |l.positions| - i
  {
    if i < |l.positions| {
      SweepStep(l, i, markets, now);
      if !Closable(l.positions[i], markets) {
        SweepClosesIffClosable(l, i + 1, markets, now);
      }
    }
  }

  /** A pass closes as many records as it takes and keeps capital + open stakes - realised P&L. */
  lemma EvaluateSummary(l: Ledger, markets: map<string, Market>, now: int)
    requires Priced(l.positions, markets)
    ensures |Evaluate(l, markets, now).ledger.closedPositions| == |l.closedPositions| + |Evaluate(l, markets, now).taken|
    ensures Basis(Evaluate(l, markets, now).ledger) == Basis(l)
  {
    SweepAccounts(l, 0, markets, now);
    SweepPreservesBasis(l, 0, markets, now);
  }

  /** Positions that are not open, or whose market is not listed, stay in the list untouched. */
  lemma EvaluateKeepsUnpriced(l: Ledger, markets: map<string, Market>, now: int, x: Position)
    requires Priced(l.positions, markets)
    requires !Evaluable(x, markets)
    ensures multiset(Evaluate(l, markets, now).ledger.positions)[x] == multiset(l.positions)[x]
  {
    SweepTakes(l, 0, markets, now);
    var e := Evaluate(l, markets, now);
    assert x !in e.taken;
  }

  /**
   * Evaluation is not idempotent: of two positions that both meet an exit
   * rule, one pass closes the first and skips the second, which slid into
   * the slot just visited; a second pass at the same prices closes it.
   */
  lemma EvaluateNotIdempotent(l: Ledger, markets: map<string, Market>, now: int)
    requires |l.positions| == 2 && Priced(l.positions, markets)
    requires Closable(l.positions[0], markets) && Closable(l.positions[1], markets)
    ensures Evaluate(l, markets, now).taken == [l.positions[0]]
    ensures Evaluate(l, markets, now).ledger.positions == [l.positions[1]]
    ensures Evaluate(Evaluate(l, markets, now).ledger, markets, now).taken == [l.positions[1]]
  {
    EvaluateClosesHead(l, markets, now);
    EvaluateClosesHead(AfterClose(l, 0, markets, now), markets, now);
  }

  /**
   * A pass over a list of one or two positions whose head meets an exit
   * rule closes the head and visits nothing else.
   */
  lemma EvaluateClosesHead(l: Ledger, markets: map<string, Market>, now: int)
    requires 0 < |l.positions| <= 2 && Priced(l.positions, markets)
    requires Closable(l.positions[0], markets)
    ensures AfterClose(l, 0, markets, now).positions == l.positions[1..]
    ensures Evaluate(l, markets, now) == Evaluation(AfterClose(l, 0, markets, now), [l.positions[0]])
  {
    var next := AfterClose(l, 0, markets, now);
    AfterCloseHead(l, markets, now);
    SweepStep(l, 0, markets, now);
    assert Sweep(next, 1, markets, now) == Evaluation(next, []);
  }

  /** Closing the head position drops it: the rest of the list is kept in order. */
  lemma AfterCloseHead(l: Ledger, markets: map<string, Market>, now: int)
    requires |l.positions| > 0 && Priced(l.positions, markets)
    requires Closable(l.positions[0], markets)
    ensures AfterClose(l, 0, markets, now).positions == l.positions[1..]
  {
    var c := Closing(l.positions[0], markets, now);
    assert l.positions[0 := c] == [c] + l.positions[1..];
    RemoveFirstHead(c, l.positions[1..]);
  }

  // ---------------------------------------------------------------------
  // The P&L normalisation
  // ---------------------------------------------------------------------

  /**
   * Take profit and stop loss in probability terms: for a positive entry
   * probability and stake, a YES position closes exactly when the price rises
   * above 1.02 times entry or falls below 0.97 times entry; a NO position
   * exactly when it falls below 0.98 times entry or rises above 1.03 times.
   */
  lemma ExitThresholds(p: Position, cur: real)
    requires p.entryProb > 0.0 && p.size > 0.0
    ensures p.side == Yes ==> (Exits(PnL(p, cur), p.size) <==> cur > 1.02 * p.entryProb || cur < 0.97 * p.entryProb)
    ensures p.side == No ==> (Exits(PnL(p, cur), p.size) <==> cur < 0.98 * p.entryProb || cur > 1.03 * p.entryProb)
  {
    var e := p.entryProb;
    var d := if p.side == Yes then cur - e else e - cur;
    var r := d / e;
    assert PnL(p, cur) == p.size * r;
    ExitsRelative(p.size, r);
    RelativeThresholds(r, e, d);
  }

  /** A relative move `r = d / e` passes a threshold exactly when `d` passes it scaled by `e`. */
  lemma RelativeThresholds(r: real, e: real, d: real)
    requires e > 0.0 && r == d / e
    ensures r > TAKE_PROFIT <==> d > TAKE_PROFIT * e
    ensures r < -STOP_LOSS <==> d < -STOP_LOSS * e
  {
    assert r * e == d;
    ScaleLt(TAKE_PROFIT, r, e);
    ScaleLt(r, -STOP_LOSS, e);
  }

  /** The exit rule on a stake times a relative move depends on the relative move alone. */
  lemma ExitsRelative(size: real, r: real)
    requires size > 0.0
    ensures Exits(size * r, size) <==> r > TAKE_PROFIT || r < -STOP_LOSS
  {
    ScaleLt(TAKE_PROFIT, r, size);
    ScaleLt(r, -STOP_LOSS, size);
  }

  /** Multiplying by a positive factor keeps a strict inequality, both ways. */
  lemma ScaleLt(a: real, b: real, c: real)
    requires c > 0.0
    ensures a < b <==> a * c < b * c
    ensures a * c == c * a && b * c == c * b
  {
    assert b * c - a * c == (b - a) * c;
  }

  /** A YES position never loses more than its stake while prices stay non-negative. */
  lemma YesLossAtMostStake(p: Position, cur: real)
    requires p.side == Yes && p.entryProb > 0.0 && p.size >= 0.0 && cur >= 0.0
    ensures PnL(p, cur) >= -p.size
  {
    var r := (cur - p.entryProb) / p.entryProb;
    assert r * p.entryProb == cur - p.entryProb;
    assert (r + 1.0) * p.entryProb == cur;
    assert r + 1.0 >= 0.0;
    assert PnL(p, cur) + p.size == p.size * (r + 1.0);
  }

  /**
   * The normalisation by entry probability lets a NO position lose several
   * times its stake: entered at 0.2, priced at 1.0, it loses four stakes.
   */
  lemma NoLossCanExceedStake()
    ensures PnL(Position("m", "M", No, 0.2, 100.0, 0, Open, None, None, None), 1.0) == -400.0
  {
  }

  /** A YES position entered at 0.20 and now at 0.22 gains 10 % of its stake and closes. */
  lemma TakeProfitExample(size: real)
    requires size > 0.0
    ensures var p := Position("m", "M", Yes, 0.20, size, 0, Open, None, None, None);
      PnL(p, 0.22) == size * 0.1 && Exits(PnL(p, 0.22), size)
  {
  }

  // ---------------------------------------------------------------------
  // The ledger a run mutates in place
  // ---------------------------------------------------------------------

  class Portfolio {
    var capital: real
    var positions: seq<Position>
    var closedPositions: seq<Position>
    var totalPnl: real
    var createdAt: int

    /** The ledger record this object holds. */
    function State(): Ledger
      reads this
    {
      Ledger(capital, positions, closedPositions, totalPnl, createdAt)
    }

    /** `load_portfolio`: the stored ledger when there is one, else 10000 of capital and nothing else. */
    constructor Load(stored: Option<Ledger>, now: int)
      ensures State() == Loaded(stored, now)
      ensures stored.None? ==> Basis(State()) == INITIAL_CAPITAL && positions == [] && closedPositions == []
    {
      match stored
      case Some(l) =>
        capital, positions, closedPositions, totalPnl, createdAt :=
          l.capital, l.positions, l.closedPositions, l.totalPnl, l.createdAt;
      case None =>
        capital, positions, closedPositions, totalPnl, createdAt :=
          INITIAL_CAPITAL, [], [], 0.0, now;
    }

    /**
     * `execute_trade`: size the stake from the signal's edge and the
     * available capital; refuse when it exceeds the capital, otherwise take
     * it out of capital and append one open position.
     */
    method ExecuteTrade(signal: Signal, now: int) returns (position: Option<Position>)
      modifies this
      ensures State() == Execute(old(State()), signal, now).ledger
      ensures position == Execute(old(State()), signal, now).created
      ensures position.None? ==> State() == old(State())
      ensures Basis(State()) == Basis(old(State()))
    {
      var availableCapital := capital;
      var edge := signal.edgePercent / 100.0;
      var size := KellySize(edge, availableCapital);
      if size > availableCapital {
        return None;
      }
      var p := Position(signal.marketId, signal.marketTitle, signal.side, signal.currentProb, size, now,
                        Open, None, None, None);
      capital := capital - size;
      positions := positions + [p];
      position := Some(p);
      ExecutePreservesBasis(old(State()), signal, now);
    }

    /**
     * One iteration of the loop in `evaluate_positions`, on the position at
     * list index `k`: skip it unless it is open and its market is listed;
     * otherwise price it, and past the take profit or stop loss mark it
     * closed in place, realise its P&L, append it to the closed list, remove
     * the first equal element from the positions list and credit stake plus
     * P&L. Returns the position as it was before closing, if it was closed.
     */
    method Visit(k: nat, markets: map<string, Market>, now: int) returns (took: Option<Position>)
      requires Priced(positions, markets) && k < |positions|
      modifies this
      ensures took.Some? <==> Closable(old(positions[k]), markets)
      ensures took.Some? ==> took.value == old(positions[k]) && State() == AfterClose(old(State()), k, markets, now)
      ensures took.None? ==> State() == old(State())
    {
      var pos := positions[k];
      if pos.status != Open {
        return None;
      }
      if pos.marketId !in markets {
        return None;
      }
      var currentProb := markets[pos.marketId].currentProbability;
      var currentPnl := PnL(pos, currentProb);
      assert currentPnl == PnLAt(pos, markets);
      if !(currentPnl > pos.size * TAKE_PROFIT || currentPnl < -pos.size * STOP_LOSS) {
        return None;
      }
      var c := pos.(status := Closed, exitProb := Some(currentProb), exitTime := Some(now), pnl := Some(currentPnl));
      assert c == Closing(pos, markets, now);
      positions := positions[k := c];
      totalPnl := totalPnl + currentPnl;
      closedPositions := closedPositions + [c];
      positions := RemoveFirst(positions, c);
      capital := capital + c.size + currentPnl;
      took := Some(pos);
    }

    /**
     * `evaluate_positions`: one pass over the positions list with Python's
     * list-iterator semantics. A closed position is updated in place, its
     * P&L is realised, it is appended to the closed list and the first equal
     * element is removed from the positions list, while the index moves on.
     * Returns how many positions were closed.
     */
    method EvaluatePositions(markets: map<string, Market>, now: int) returns (closed: nat)
      requires Priced(positions, markets)
      modifies this
      ensures State() == Evaluate(old(State()), markets, now).ledger
      ensures closed == |Evaluate(old(State()), markets, now).taken|
      ensures closed == |closedPositions| - |old(closedPositions)|
      ensures Basis(State()) == Basis(old(State()))
    {
      ghost var start := State();
      ghost var target := Evaluate(start, markets, now);
      ghost var done: seq<Position> := [];
      closed := 0;
      var i := 0;
      while i < |positions|
        invariant Priced(positions, markets)
        invariant Sweep(State(), i, markets, now).ledger == target.ledger
        invariant done + Sweep(State(), i, markets, now).taken == target.taken
        invariant closed == |done|
        decreases |positions| - i
      {
        ghost var before := State();
        var took := Visit(i, markets, now);
        SweepVisited(before, i, markets, now, State(), took);
        i := i + 1;
        if took.Some? {
          closed := closed + 1;
          done := done + [took.value];
        }
      }
      EvaluateSummary(start, markets, now);
    }
  }
}

# Prediction-market paper-trading bot, modelled in Dafny

This project models the decision core of a paper-trading bot for binary
markets on Manifold (`2026-02-21-prediction-bot/prediction_bot.py`). One run
of the bot does the following:

- loads its ledger (the capital, the open and closed positions, and the
  realised profit and loss);
- filters a market listing down to active binary markets;
- re-prices the open positions, closing those that crossed the take-profit
  or stop-loss threshold;
- scans the first 50 markets with two edge detectors: mean reversion on the
  price history, and resolution arbitrage near the close;
- sizes trades with fractional Kelly and paper-trades at most three signals.

Every operation is a Dafny function, or a method proved against one, with
its contract.

Modules, one file each:

- `Wrappers`, `Numbers` (`wrappers.dfy`): `Option` with a default, and
  `Abs`/`Min`/`Max` on reals.
- `Markets` (`markets.dfy`): the market snapshot, the decoded listing
  record, and the record filter of `get_markets` (`Listed`, and the
  `GetMarkets` loop proved equal to it).
- `Detectors` (`detectors.dfy`): trade signals, the weighted fair value,
  `detect_mean_reversion` and `detect_resolution_arbitrage`.
- `Sizing` (`sizing.dfy`): `position_size_kelly`.
- `Portfolios` (`portfolios.dfy`): positions and the ledger value. The pure
  specification functions are `Execute` (`execute_trade`) and `Evaluate`
  (`evaluate_positions`). The class `Portfolio` holds the ledger that a run
  mutates in place. Its methods `ExecuteTrade`, `Visit` and
  `EvaluatePositions` are proved to follow those functions.
- `Cycle` (`cycle.dfy`): `analyze_markets` (`Analyze` and the
  `AnalyzeMarkets` loop), the trading loop of `run_once` (`TradeRound` and
  the `Trade` loop), and the whole cycle (`RunCycle` and the `RunOnce`
  method).

Probabilities and amounts are exact `real` numbers. The clock is the
parameter `now`, in epoch seconds. A price history arrives as a map from
market id to history points. The stored portfolio file arrives as an
optional ledger. The saved ledger and the decision log are returned in the
cycle's `Outcome`.

Invariant of the ledger: `Basis = capital + (sum of open stakes) - total
P&L`. Opening a trade and closing a position move value between these terms
only. `ExecutePreservesBasis`, `SweepPreservesBasis`, `RoundPreservesBasis`
and `CyclePreservesBasis` prove that the basis is preserved.

### Where the behaviour as written differs from the documented intent

The model follows the code in each of these places.

- **Evaluation skips positions.** `evaluate_positions` removes from the
  list it is iterating over. Python's list iterator then skips the position
  after each closed one. One pass is therefore not a fixpoint: with two
  closable positions, one pass closes only the first and a second pass
  closes the other (`EvaluateNotIdempotent`). `Sweep` models the iterator
  by index.
- **`list.remove` drops the first equal element.** It removes the first
  value-equal element, which is not necessarily the visited one
  (`RemoveFirst`). The properties of a pass are therefore stated over
  multisets.
- **Missing close time.** When a listing record has no close time, the
  default is one year from now in seconds, but it is then divided by 1000
  as if it were milliseconds. The market then appears to have closed in
  1970 and never yields a resolution-arbitrage signal
  (`MissingCloseTimeNeverArbitraged`).
- **Mean-reversion price source.** The `current_prob` of a mean-reversion
  signal is the last recent history sample, not the snapshot's probability.
  Trades enter at that price.
- **Effective arbitrage band.** The arbitrage detector accepts probabilities
  in [0.4, 0.6]. Its edge must still exceed 5 percentage points to be
  surfaced, so only [0.4, 0.45) and (0.55, 0.6] survive the analysis
  (`ArbitrageSurfaced`).

## Model

| member | source | states |
|---|---|---|
| Markets.MillisToSeconds | 2026-02-21-prediction-bot/prediction_bot.py:129-130 | `int(ms / 1000)` truncates toward zero: for ms ≥ 0, s·1000 ≤ ms < s·1000 + 1000; for negative ms, the mirror bound with s ≤ 0 |
| Markets.ToMarket | 2026-02-21-prediction-bot/prediction_bot.py:124-133 | the snapshot carries the record's volume and resolved flag (with defaults 0 and false), is stamped with `now` and has no resolution |
| Markets.Listed | 2026-02-21-prediction-bot/prediction_bot.py:115-134 | the listing never grows; every listed market has 24-hour volume ≥ 100, is unresolved and is stamped with `now`; order and multiplicity are stated by `ListedAppend` |
| Markets.ListedAppend | 2026-02-21-prediction-bot/prediction_bot.py:115-134 | the listing keeps record order and multiplicity: the listing of a concatenation is the concatenation of the listings |
| Markets.Admitted | 2026-02-21-prediction-bot/prediction_bot.py:116-122 | defines the three filter conditions (binary type, not resolved, volume ≥ 100); `ListedExactly` and `GetMarkets` state them |
| Markets.ListedExactly | 2026-02-21-prediction-bot/prediction_bot.py:115-134 | a snapshot is listed if and only if some record of type BINARY_MARKET, not resolved, with volume ≥ 100, produces it |
| Markets.GetMarkets | 2026-02-21-prediction-bot/prediction_bot.py:112-134 | the record loop with its three `continue`s builds exactly `Listed(records, now)`, and only admitted markets |
| Detectors.Recent | 2026-02-21-prediction-bot/prediction_bot.py:161-162 | the recent window holds exactly the history points less than 86400 s old: each kept point is in the history and recent, and every recent point of the history is kept |
| Detectors.RecentAppend | 2026-02-21-prediction-bot/prediction_bot.py:162 | the window keeps history order: the window of a concatenation is the concatenation of the windows |
| Detectors.Probs | 2026-02-21-prediction-bot/prediction_bot.py:167 | one probability per point, in order, 0.5 for a missing probability |
| Detectors.WeightTotalClosedForm | 2026-02-21-prediction-bot/prediction_bot.py:178-179 | the weights 1..n sum to n(n+1)/2 |
| Detectors.WeightTotalAtLeast | 2026-02-21-prediction-bot/prediction_bot.py:178-179 | the weight total is at least n, so the fair-value division is by a positive number for a non-empty window |
| Detectors.WeightedSumBounds | 2026-02-21-prediction-bot/prediction_bot.py:178-179 | if every sample is in [lo, hi], the weighted sum is between lo and hi times the weight total |
| Detectors.FairValueBetween | 2026-02-21-prediction-bot/prediction_bot.py:177-179 | the weighted fair value lies between the smallest and largest bounds of the samples |
| Detectors.FairValue | 2026-02-21-prediction-bot/prediction_bot.py:178-179 | defines the recency-weighted mean (weights 1..n); `FairValueBetween` bounds it by the samples' range |
| Detectors.Move | 2026-02-21-prediction-bot/prediction_bot.py:170-172 | defines the move as the distance between the last and the first recent sample; `DetectMeanReversion` states its gate |
| Detectors.Edge | 2026-02-21-prediction-bot/prediction_bot.py:182 | defines the edge as the distance between the last recent sample and the fair value; `DetectMeanReversion` and `MeanReversionSurfaced` state its gates |
| Detectors.DetectMeanReversion | 2026-02-21-prediction-bot/prediction_bot.py:149-205 | fires if and only if ≥ 10 points, ≥ 5 recent, move ≥ 0.10 and edge ≥ 0.05; then: same id and title; current = last recent sample; fair value = the weighted mean; edge percent = 100·abs(current − fair) ≥ 5; side NO if and only if current > fair; confidence = min(0.8, 2·edge), in [0.1, 0.8] |
| Detectors.MeanReversionWithinRange | 2026-02-21-prediction-bot/prediction_bot.py:160-202 | when all history probabilities lie in [lo, hi], so do the signal's current and fair values, and the edge percent is at most 100·(hi − lo) |
| Detectors.DetectResolutionArbitrage | 2026-02-21-prediction-bot/prediction_bot.py:207-243 | fires if and only if 0 ≤ days to close ≤ 7 and 0.4 ≤ p ≤ 0.6; then fair value 0.5, confidence 0.5, edge percent = 100·abs(0.5 − p) in [0, 10], side YES if and only if p < 0.5 |
| Detectors.ArbitrageWindowInSeconds | 2026-02-21-prediction-bot/prediction_bot.py:216-222 | the day window with true division is exactly now ≤ closesAt ≤ now + 7·86400 seconds |
| Detectors.MissingCloseTimeNeverArbitraged | 2026-02-21-prediction-bot/prediction_bot.py:130 | a record without close time gets a close time in the past (for any now ≥ 31568), so no arbitrage signal is ever raised for it |
| Sizing.KellySize | 2026-02-21-prediction-bot/prediction_bot.py:295-312 | the stake is always in [10, 1000]; equals capital·2·edge·0.25 when that is in range; is 1000 above and 10 below |
| Sizing.KellyMonotoneInEdge | 2026-02-21-prediction-bot/prediction_bot.py:305-312 | with capital ≥ 0, a larger edge never gives a smaller stake |
| Sizing.KellyMonotoneInCapital | 2026-02-21-prediction-bot/prediction_bot.py:305-312 | with edge ≥ 0, more capital never gives a smaller stake |
| Sizing.KellyExample | 2026-02-21-prediction-bot/prediction_bot.py:305-312 | an edge of 0.10 on 10000 stakes 500 |
| Portfolios.InitialLedger | 2026-02-21-prediction-bot/prediction_bot.py:282-288 | the first ledger has capital 10000, no positions, no closed positions, basis 10000, created at `now` |
| Portfolios.Loaded | 2026-02-21-prediction-bot/prediction_bot.py:276-288 | defines the loaded ledger: the stored one, else the initial one; `Portfolio.Load` and `InitialLedger` state it |
| Portfolios.Stake | 2026-02-21-prediction-bot/prediction_bot.py:318-320 | defines the stake of a signal: the Kelly size of its edge percent over 100 on the available capital; `Execute`, `Trades` and `RoundReaches` state its use |
| Portfolios.Portfolio.Load | 2026-02-21-prediction-bot/prediction_bot.py:276-288 | the live portfolio holds the stored ledger if there is one, else the initial ledger |
| Portfolios.Execute | 2026-02-21-prediction-bot/prediction_bot.py:314-345 | refuses (ledger unchanged) if and only if the Kelly stake exceeds capital; else capital drops by the stake and exactly one open position is appended with the signal's id, title, side, current probability as entry price, the stake as size and `now` as entry time; a created stake is in [10, 1000] and leaves capital ≥ 0; capital below 10 always refuses |
| Portfolios.ExecutePreservesBasis | 2026-02-21-prediction-bot/prediction_bot.py:337-339 | a trade leaves capital + open stakes − total P&L unchanged |
| Portfolios.Portfolio.ExecuteTrade | 2026-02-21-prediction-bot/prediction_bot.py:314-345 | the in-place trade leaves the portfolio in state `Execute(old state)` and returns its created position; unchanged when refused; basis preserved |
| Portfolios.RemoveFirst | 2026-02-21-prediction-bot/prediction_bot.py:377 | `list.remove`: when the value is present, the result drops the element at the first index holding it and keeps the others in order (one copy leaves the multiset, the length drops by one); otherwise the list is unchanged |
| Portfolios.RemoveFirstHead | 2026-02-21-prediction-bot/prediction_bot.py:377 | removing a list's head value removes exactly the head |
| Portfolios.IndexOf | 2026-02-21-prediction-bot/prediction_bot.py:377 | the index found holds the value and no earlier element equals it |
| Portfolios.PnL | 2026-02-21-prediction-bot/prediction_bot.py:359-366 | defines the unrealised P&L as the stake times the relative move since entry, by side; `ExitThresholds`, `YesLossAtMostStake` and `NoLossCanExceedStake` state its behaviour |
| Portfolios.Exits | 2026-02-21-prediction-bot/prediction_bot.py:368-369 | defines the exit rule (P&L above 2 % of the stake or below −3 %); `ExitThresholds` and `ExitsRelative` restate it in price and relative terms |
| Portfolios.Closing | 2026-02-21-prediction-bot/prediction_bot.py:370-373 | defines the closed record: status closed, exit probability, exit time `now` and the P&L filled in; `SweepAccounts` states that these records are appended |
| Portfolios.Sweep | 2026-02-21-prediction-bot/prediction_bot.py:347-385 | defines the pass from list index i with the iterator-skip semantics; `SweepTakes`, `SweepAccounts`, `SweepPreservesBasis` and `SweepClosesIffClosable` state its effect |
| Portfolios.Evaluate | 2026-02-21-prediction-bot/prediction_bot.py:347-385 | defines `evaluate_positions` on a ledger value as the pass from index 0; `EvaluateSummary`, `EvaluateKeepsUnpriced` and `EvaluateNotIdempotent` state its effect |
| Portfolios.AfterClose | 2026-02-21-prediction-bot/prediction_bot.py:370-378 | closing one position keeps every priced position's entry probability non-zero |
| Portfolios.AfterCloseMultiset | 2026-02-21-prediction-bot/prediction_bot.py:370-377 | closing removes exactly one copy of the visited position from the open list |
| Portfolios.SumSizesRemoveFirst | 2026-02-21-prediction-bot/prediction_bot.py:377-378 | removing a position lowers the open stake total by its size |
| Portfolios.SweepTakes | 2026-02-21-prediction-bot/prediction_bot.py:347-385 | every position a pass closes met the exit rule, and the open positions before the pass are, as a multiset, the ones after it plus the ones closed |
| Portfolios.SweepAccounts | 2026-02-21-prediction-bot/prediction_bot.py:370-378 | a pass appends the closed record of each taken position in order, credits capital with each stake plus its P&L, adds the realised P&L to the total, and keeps the creation time |
| Portfolios.SweepPreservesBasis | 2026-02-21-prediction-bot/prediction_bot.py:375-378 | a pass leaves capital + open stakes − total P&L unchanged |
| Portfolios.SweepClosesIffClosable | 2026-02-21-prediction-bot/prediction_bot.py:347-385 | a pass closes nothing if and only if no position from the start index meets the exit rule, and then changes nothing |
| Portfolios.EvaluateSummary | 2026-02-21-prediction-bot/prediction_bot.py:347-385 | after a full pass, the closed list grew by exactly the number of positions taken, and the basis is unchanged |
| Portfolios.EvaluateKeepsUnpriced | 2026-02-21-prediction-bot/prediction_bot.py:350-356 | a position that is not open, or whose market is not in the map, stays in the open list as many times as before |
| Portfolios.EvaluateNotIdempotent | 2026-02-21-prediction-bot/prediction_bot.py:349-377 | with two closable positions, a pass closes only the first (the second is skipped) and a second pass closes the other |
| Portfolios.ExitThresholds | 2026-02-21-prediction-bot/prediction_bot.py:361-369 | for entry price e > 0 and stake > 0: a YES position exits if and only if cur > 1.02·e or cur < 0.97·e; a NO position if and only if cur < 0.98·e or cur > 1.03·e |
| Portfolios.ExitsRelative | 2026-02-21-prediction-bot/prediction_bot.py:366-369 | for stake > 0, a P&L of stake·r exits if and only if r > 0.02 or r < −0.03 |
| Portfolios.YesLossAtMostStake | 2026-02-21-prediction-bot/prediction_bot.py:361-366 | a YES position can lose at most its stake |
| Portfolios.NoLossCanExceedStake | 2026-02-21-prediction-bot/prediction_bot.py:361-366 | a NO position entered at 0.2 with stake 100 shows P&L −400 at probability 1 (its loss is not bounded by the stake) |
| Portfolios.TakeProfitExample | 2026-02-21-prediction-bot/prediction_bot.py:361-369 | a YES position entered at 0.20 and priced at 0.22 shows a P&L of 10 % of its stake and meets the exit rule |
| Portfolios.Portfolio.Visit | 2026-02-21-prediction-bot/prediction_bot.py:350-378 | one iteration on the live list: returns the position if and only if it meets the exit rule, and then the state is `AfterClose` of the old state; otherwise nothing changes |
| Portfolios.Portfolio.EvaluatePositions | 2026-02-21-prediction-bot/prediction_bot.py:347-385 | the in-place loop leaves the state `Evaluate(old state)`; its return value is the number of positions taken, which equals the growth of the closed list; basis preserved |
| Cycle.Prefix | 2026-02-21-prediction-bot/prediction_bot.py:436 | Python's `s[:n]`: exactly the first min(n, |s|) elements |
| Cycle.Surfaced | 2026-02-21-prediction-bot/prediction_bot.py:254-263 | a detector result is kept if and only if there is one and its edge percent exceeds 5, and then the kept signal is that result |
| Cycle.MarketSignals | 2026-02-21-prediction-bot/prediction_bot.py:250-265 | a market yields its mean-reversion result first and its arbitrage result last, each present exactly when surfaced, and nothing else |
| Cycle.ScanSignals | 2026-02-21-prediction-bot/prediction_bot.py:245-270 | a scan yields at most two signals per market, each with edge percent > 5 and the id of a scanned market |
| Cycle.ScanComplete | 2026-02-21-prediction-bot/prediction_bot.py:250-265 | every signal surfaced for a scanned market is in the scan |
| Cycle.ScanExtend | 2026-02-21-prediction-bot/prediction_bot.py:250-265 | scanning keeps market order: scanning one more market appends exactly that market's surfaced signals |
| Cycle.Scan | 2026-02-21-prediction-bot/prediction_bot.py:250-265 | defines the surfaced signals of a market list, in market order; `ScanSignals`, `ScanComplete` and `ScanExtend` state it |
| Cycle.ArbitrageSurfaced | 2026-02-21-prediction-bot/prediction_bot.py:260-263 | an arbitrage signal survives the edge filter if and only if the window holds and p is in [0.4, 0.45) or (0.55, 0.6] |
| Cycle.MeanReversionSurfaced | 2026-02-21-prediction-bot/prediction_bot.py:254-257 | a mean-reversion signal survives the edge filter if and only if its edge is strictly above 0.05 |
| Cycle.AnalyzeSignals | 2026-02-21-prediction-bot/prediction_bot.py:245-270 | analysis returns at most 100 signals, each with edge percent > 5 and the id of one of the first 50 markets |
| Cycle.AnalyzeComplete | 2026-02-21-prediction-bot/prediction_bot.py:250-265 | every signal surfaced for one of the first 50 markets is returned (the converse of `AnalyzeSignals`) |
| Cycle.Analyze | 2026-02-21-prediction-bot/prediction_bot.py:245-270 | defines `analyze_markets` as the scan of the first 50 markets; `AnalyzeSignals` and `AnalyzeComplete` state it |
| Cycle.ScanMarket | 2026-02-21-prediction-bot/prediction_bot.py:252-265 | one loop iteration appends exactly `MarketSignals` for the market: mean reversion first, then arbitrage |
| Cycle.AnalyzeMarkets | 2026-02-21-prediction-bot/prediction_bot.py:245-270 | the loop over the first 50 markets returns exactly `Analyze(markets)` |
| Cycle.IndexById | 2026-02-21-prediction-bot/prediction_bot.py:424 | every market's id is a key, and each key maps to a listed market with that id |
| Cycle.IndexByIdLastWins | 2026-02-21-prediction-bot/prediction_bot.py:424 | for duplicate ids the dict comprehension keeps the last market |
| Cycle.ExecutedEntries | 2026-02-21-prediction-bot/prediction_bot.py:447-449 | the executed records of the log are kept and only they: a record of the result is in the log and executed, and every executed record of the log is in the result |
| Cycle.LogEntry | 2026-02-21-prediction-bot/prediction_bot.py:387-399 | defines the decision record: the signal's market id and title, edge type, edge percent, side and confidence, the executed flag and the clock; `RoundLog`, `RoundReaches` and `CycleReaches` state which records are written |
| Cycle.TradeRound | 2026-02-21-prediction-bot/prediction_bot.py:434-449 | defines the trading loop of `run_once` on a ledger value; `RoundLog`, `RoundReaches`, `RoundPositions`, `RoundCapital` and `RoundPreservesBasis` state its effect |
| Cycle.RoundLog | 2026-02-21-prediction-bot/prediction_bot.py:434-449 | at most one record and one execution per signal; a record is executed if and only if its confidence is ≥ 0.5; each record is the log entry of one of the signals, stamped `now` |
| Cycle.RoundAppends | 2026-02-21-prediction-bot/prediction_bot.py:434-449 | trading only appends to the open positions; closed positions, total P&L and creation time are untouched |
| Cycle.RoundPositions | 2026-02-21-prediction-bot/prediction_bot.py:446-449 | exactly one open position, with the same market and side, is appended per executed record, in order, and the executed count equals the number of executed records |
| Cycle.RoundPreservesBasis | 2026-02-21-prediction-bot/prediction_bot.py:434-449 | a trading round leaves capital + open stakes − total P&L unchanged |
| Cycle.RoundCapital | 2026-02-21-prediction-bot/prediction_bot.py:442-446 | trading never drives capital below zero; with capital below 100, the ledger is unchanged and nothing is executed |
| Cycle.Stops | 2026-02-21-prediction-bot/prediction_bot.py:437-444 | defines when the round stops: a signal passing the confidence gate is met with capital below 100 |
| Cycle.RoundSplit | 2026-02-21-prediction-bot/prediction_bot.py:434-449 | a round that does not stop within its first signals continues on the rest from the ledger they leave, concatenating logs and counts |
| Cycle.Trades | 2026-02-21-prediction-bot/prediction_bot.py:437-446 | defines a signal that passes both gates and whose Kelly stake fits in the capital |
| Cycle.RoundReaches | 2026-02-21-prediction-bot/prediction_bot.py:434-449 | for each signal the round reaches, the earlier log is kept and then: confidence below 0.5 logs it as not executed; confidence ≥ 0.5 with capital below 100 ends the round with nothing more logged or traded; both gates passed with a stake that fits opens a position and logs it as executed; a signal past both gates whose stake exceeds the capital is refused, and the round up to and including it equals the round before it (nothing logged, ledger and count unchanged) |
| Cycle.RunCycle | 2026-02-21-prediction-bot/prediction_bot.py:408-461 | a cycle aborts, saving nothing, if and only if the market list is empty |
| Cycle.CyclePreservesBasis | 2026-02-21-prediction-bot/prediction_bot.py:408-454 | the saved ledger has the basis of the loaded one |
| Cycle.CycleLog | 2026-02-21-prediction-bot/prediction_bot.py:434-449 | a cycle logs at most 3 records and executes at most 3 trades; every record has edge percent > 5 and is executed if and only if its confidence is ≥ 0.5; the executed count equals the number of executed records |
| Cycle.CycleReaches | 2026-02-21-prediction-bot/prediction_bot.py:434-449 | every one of the first 3 analyzed signals the cycle reaches is logged: as not executed below confidence 0.5, as executed when it passes both gates and its stake fits |
| Cycle.Trade | 2026-02-21-prediction-bot/prediction_bot.py:434-449 | the trading loop on the live portfolio (skip-and-log, `break` below 100, log only created positions) ends in the state, log and count of `TradeRound` |
| Cycle.RunOnce | 2026-02-21-prediction-bot/prediction_bot.py:408-461 | the whole run on a live portfolio returns exactly `RunCycle`, and aborts if and only if the market list is empty |

## Left out

- HTTP access (`fetch_json`, the listing URL, `get_market_history`) is not modelled. The listing is an input sequence of decoded records, and the histories are an input map; a market without history gets the empty history, as `history or []` gives.
- JSON decoding is not modelled. Record fields of an unexpected JSON type (such as a string volume or a truthy non-boolean `isResolved`) are not represented: each field is present with its intended type or missing.
- File I/O is not modelled. `load_portfolio` takes the stored ledger as an optional input, `save_portfolio` becomes the `saved` field of the outcome, and `log_decision` appends records to a returned sequence instead of a JSONL file.
- The clock is the parameter `now` in integer seconds. A log record's ISO timestamp and a position's entry and exit times are all `now`; within one run, the source reads the clock several times.
- Floating point is not modelled: every probability and amount is an exact real, so IEEE rounding at the thresholds (for example the edge of exactly 0.05) is not represented.
- `print` output, the rationale strings and `time.sleep` rate limiting have no effect on state and are not modelled.
- `Portfolios.Portfolio.EvaluatePositions`: requires that no open position whose market is listed has entry probability 0. When the iterator visits such a position, the source raises ZeroDivisionError and aborts the run; that crash is not modelled. The requirement is wider than the crash: it also excludes lists where such a position sits right after a closed one, is skipped by the iterator, and the source finishes normally.
- `Cycle.RunCycle`: requires `Runnable`, the same condition on the loaded ledger. It excludes the ZeroDivisionError input of lines 361-366, and also lists where the iterator skips the zero-entry position and the source finishes normally.
- `Portfolios.Evaluate`: requires `Priced`. It excludes the ZeroDivisionError input of lines 361-366, and also lists where the iterator skips the zero-entry position and the source finishes normally.
- `Portfolios.Sweep`: requires `Priced`. It excludes the ZeroDivisionError input of lines 361-366, and also lists where the iterator skips the zero-entry position and the source finishes normally.
- `Portfolios.Portfolio.Visit`: requires the whole list to be `Priced`, although it visits one position. It excludes the ZeroDivisionError input of lines 361-366, and also lists where the iterator skips the zero-entry position and the source finishes normally.
- `Cycle.RunOnce`: requires the same condition for the loaded ledger (`Runnable`), for the same reason, and so also excludes the ledgers on which the skip lets the source finish normally.
- `run_demo`, the continuous loop and command-line entry point, the `check_interval` setting, the never-implemented correlation-lag edge type and the separate `analyze_bot.py` report are not part of this model.
- `Markets.GetMarkets`: a failed or empty fetch, which makes `get_markets` return no markets, is modelled only as an empty record sequence.

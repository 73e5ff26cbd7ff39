# Polymarket paper trading and whale tracking, in Dafny

This project models three parts of a Polymarket trading bot and proves
properties of them:

- **The paper-trading engine** (`PaperTradingEngine`). It simulates trading
  without money. Its state is:
  - a balance;
  - a trades table of OPEN/CLOSED rows with their P&L;
  - a table of open positions;
  - an append-only balance history.

  `place_order` checks a BUY against the balance and appends a trade row.
  A BUY then opens a position row. Any other side closes every row of the
  same (market, token) pair. Finally the balance is recomputed from the
  closed trades' P&L.
- **The whale tracker** (`WhaleTrackerAgent`). It reads the live trade feed
  and counts matched trades. It records each trade whose notional value
  (price × size) reaches $10,000 and updates a registry of whale wallets.
  For a whale with a high enough win rate it can decide to copy the trade:
  first the AI gate, then the sizing, then the balance gate, then one
  copy-signal row.
- **Pure helpers of the trading library**:
  - the AI-swarm vote tally;
  - the whale-size filter of recent trades;
  - best bid/ask selection and the paper-mode order defaults;
  - the YES/NO position aggregation;
  - the tier choice of the USD formatter.

Each imperative part is written twice.

- A value-level model describes the whole state as a datatype. It has one
  transition function per operation: `PaperLedger.Ledger` with
  `PaperLedger.PlaceOrder` and friends, and `WhaleTracker.AgentState` with
  `WhaleTracker.OnMessage` and friends. The lemmas about these functions
  state what the source promises.
- A class keeps the source's fields and updates them in place:
  `PaperTrading.PaperTradingEngine` and `WhaleTracker.WhaleTrackerAgent`.
  Each method is proved to leave `State()` exactly where the transition
  function says. The masked DataFrame updates become loops with invariants.

Prices, sizes and P&L are `real`s. Timestamps and trade ids are values
supplied by the caller. Calls to code outside the model are parameters:
- the trader-statistics lookup;
- the AI swarm;
- the balance query;
- `place_market_order`, as the copy path sees it;
- the order book;
- the positions and the market prices.

In the tracker these parameters are bundled as `WhaleTracker.Services`.
The module constants are a `WhaleTracker.Config`, and
`WhaleTracker.DefaultConfig` holds the shipped values.

Files:
- `common.dfy`: `Option`, `Field` (a JSON number as `float(...)` sees it) and
  `ParseField`.
- `text.dfy`: ASCII upper/lower case and substring test.
- `paper_ledger.dfy`: the ledger as values.
- `paper_trading.dfy`: the engine class.
- `polymarket.dfy`: the library helpers and the paper routing into the engine.
- `whale_tracker.dfy`: the tracker as values and the agent class.

What the model shows about the ledger, following the code:

- **The debit is overwritten.** After every accepted order the balance is
  `starting_balance + realized P&L`. The debit of a BUY (line 242) and the
  credit of a close (line 305) are overwritten by `_recalculate_balance`
  (line 152). A BUY therefore leaves the balance unchanged.
- **The balance can go negative.** A SELL closes every open BUY of its pair
  with the P&L of the first position row only. So two BUYs of a pair's full
  starting balance followed by a worthless SELL leave the balance at minus
  the starting balance (`PaperLedger.BalanceCanGoNegative`). The balance is
  not bounded below by 0.
- **A SELL without a position still succeeds.** It appends its trade row and
  returns an id: a SELL without a position is not rejected.
- **Repeated BUYs are not merged.** Each BUY appends its own position row;
  there is no weighted-average merge.

## Model

| member | source | states |
|---|---|---|
| Common.ParseField | src/agents/whale_tracker_polymarket.py:219-220 | `float(payload.get(k, 0))` fails exactly on a malformed value; a missing key reads as 0 and a number as itself |
| Common.ShareBounds | src/nice_funcs_polymarket.py:870 | a share part/total of a non-empty count lies in [0, 1]; it is 1 when the part is everything and 0 when it is nothing |
| PaperLedger.RealizedPnlAppend | src/paper_trading_polymarket.py:145-147 | one more trade row adds its P&L to the realized total when it is CLOSED, nothing otherwise |
| PaperLedger.Recalculate | src/paper_trading_polymarket.py:139-167 | with no trades: the balance is reset to the start and the history is untouched; otherwise balance = start + realized P&L and exactly one snapshot (balance, realized + unrealized) is appended; the tables are unchanged |
| PaperLedger.NewPosition | src/paper_trading_polymarket.py:268-280 | a new position row is marked at its entry: current price = entry price, current value = entry value, unrealized P&L 0 |
| PaperLedger.FirstAtPair | src/paper_trading_polymarket.py:292-296 | finds the first position row of the (market, token) pair, or reports that none matches |
| PaperLedger.RemovePair | src/paper_trading_polymarket.py:319-320 | `positions_df[~mask]` keeps exactly the rows not of the pair and is never longer |
| PaperLedger.RemovePairAppend | src/paper_trading_polymarket.py:319-320 | the filter keeps the order of the rows: filtering a concatenation filters each part |
| PaperLedger.RemovePairCounts | src/paper_trading_polymarket.py:319-320 | the filter keeps every row not of the pair as many times as it occurs, and drops every row of the pair |
| PaperLedger.OpenPosition | src/paper_trading_polymarket.py:257-287 | `_add_position` appends exactly one row, at the pair and side, priced at entry with unrealized P&L 0; earlier rows, trades, history and balance are unchanged |
| PaperLedger.ClosePosition | src/paper_trading_polymarket.py:289-323 | without a row of the pair nothing changes; otherwise the exit value price·shares is credited, every OPEN BUY of the pair gets CLOSED with pnl = exit value − entry value of the first matching row, other trades are unchanged, and no row of the pair is left |
| PaperLedger.Record | src/paper_trading_polymarket.py:216-251 | the order's trade row is appended last; a BUY debits price·size and appends one position row; any other side leaves no position row of its pair |
| PaperLedger.Remark | src/paper_trading_polymarket.py:330-334 | a row of the market gets current_price = p, current_value = shares·p and unrealized = current_value − entry_value, nothing else; other rows are unchanged |
| PaperLedger.NewTrade | src/paper_trading_polymarket.py:216-231 | the recorded trade is OPEN with P&L 0, usd_value = price·size, and the order's side, pair and id |
| PaperLedger.PlaceOrder | src/paper_trading_polymarket.py:169-255 | refused (None) iff a BUY costs more than the balance, and then the ledger is unchanged; otherwise returns the id and leaves a balanced ledger (balance = start + realized) |
| PaperLedger.UpdatePositionPrices | src/paper_trading_polymarket.py:325-336 | every row of the market gets current_price = p, current_value = shares·p and unrealized = current_value − entry_value; other rows, trades, history and balance are unchanged |
| PaperLedger.PerformanceSummary | src/paper_trading_polymarket.py:338-371 | no CLOSED trades gives zeros plus the current balance; otherwise total = closed trades, winning = closed with pnl > 0, losing = closed with pnl < 0, win_rate = winning/total·100, total_pnl = realized P&L, avg_win and avg_loss the means of the winning and losing P&L (0 without any), and total_return = (balance − start)/start·100, which is not a finite number when start is 0 |
| PaperLedger.RecalculateIdempotent | src/paper_trading_polymarket.py:139-167 | recalculating twice gives the same balance and tables; the second call only logs a copy of the last snapshot |
| PaperLedger.UnaffordableBuyRejected | src/paper_trading_polymarket.py:196-201 | a BUY with price·size above the balance returns None and changes nothing |
| PaperLedger.AcceptedBuy | src/paper_trading_polymarket.py:216-251 | an affordable BUY appends exactly one OPEN trade and one fresh position row (existing rows untouched) and leaves balance = start + realized, i.e. unchanged on a balanced ledger |
| PaperLedger.SellWithoutPosition | src/paper_trading_polymarket.py:289-295 | a SELL with no matching position still appends its trade and returns an id; positions are unchanged and balance = start + realized (unchanged on a balanced ledger) |
| PaperLedger.SellWithPosition | src/paper_trading_polymarket.py:296-321 | with a match, every OPEN BUY of the pair becomes CLOSED with pnl = exit·shares − entry value of the first matching row, other trades are untouched, the SELL's row is appended, and the positions become exactly the filter that drops the pair (order and multiplicity kept, nothing added) |
| PaperLedger.ClosedTradesAreFinal | src/paper_trading_polymarket.py:309-316 | a CLOSED trade row is never changed by a later order |
| PaperLedger.AcceptedOrderLogsOneSnapshot | src/paper_trading_polymarket.py:155-165 | an accepted order extends the balance history by exactly one snapshot of the new balance and total P&L |
| PaperLedger.RoundTrip | src/paper_trading_polymarket.py:296-305 | on a fresh engine, BUY S at P then SELL S at P′ leaves the BUY CLOSED with pnl (P′−P)·S, no position, and balance = start + (P′−P)·S |
| PaperLedger.RepeatedBuysKeepSeparateRows | src/paper_trading_polymarket.py:282-285 | two BUYs append two separate position rows, with no merge even for the same pair |
| PaperLedger.LossyClose | src/paper_trading_polymarket.py:309-316 | closing two open BUYs of a pair charges both with the first row's P&L |
| PaperLedger.FirstBuy | src/paper_trading_polymarket.py:240-251 | the first BUY on a fresh engine leaves the balance at the start: the debit is overwritten |
| PaperLedger.BalanceCanGoNegative | src/paper_trading_polymarket.py:152 | two full-balance BUYs and a worthless SELL of the pair leave balance = −start |
| PaperLedger.OrdersKeepPositionsMarked | src/paper_trading_polymarket.py:268-280 | every order keeps current_value = shares·current_price and unrealized = current − entry on every row |
| PaperLedger.RemarkKeepsPositionsMarked | src/paper_trading_polymarket.py:330-334 | re-pricing keeps every row's marks consistent |
| PaperLedger.WinsAndLossesAreClosed | src/paper_trading_polymarket.py:355-356 | winning + losing ≤ closed trades |
| PaperLedger.WinsSumPositive | src/paper_trading_polymarket.py:367 | the winning P&L sum is ≥ 0, and > 0 when there is a win |
| PaperLedger.LossesSumNegative | src/paper_trading_polymarket.py:368 | the losing P&L sum is ≤ 0, and < 0 when there is a loss |
| PaperLedger.NoClosedNoRealized | src/paper_trading_polymarket.py:145-147 | without CLOSED trades the realized P&L is 0 |
| PaperLedger.SummaryBounds | src/paper_trading_polymarket.py:355-371 | win + loss ≤ total, win_rate in [0, 100], total_pnl = realized P&L, avg_win ≥ 0 (> 0 with a win), avg_loss ≤ 0 (< 0 with a loss), and on a balanced ledger with a non-zero start total_return = total_pnl/start·100 |
| PaperLedger.QuotientSign | src/paper_trading_polymarket.py:367-368 | dividing a sum by a positive count keeps its sign, so a mean of wins is positive and a mean of losses negative |
| PaperTrading.PaperTradingEngine.constructor | src/paper_trading_polymarket.py:56-72 | a new engine holds the starting balance and empty tables |
| PaperTrading.PaperTradingEngine.RecalculateBalance | src/paper_trading_polymarket.py:139-167 | updates the fields exactly as `Recalculate` |
| PaperTrading.PaperTradingEngine.PlaceOrder | src/paper_trading_polymarket.py:169-255 | updates the fields and returns exactly as `PlaceOrder`, and keeps the invariant (balance = start + realized, rows consistently marked) |
| PaperTrading.PaperTradingEngine.AddPosition | src/paper_trading_polymarket.py:257-287 | appends exactly the new position row |
| PaperTrading.PaperTradingEngine.ClosePosition | src/paper_trading_polymarket.py:289-323 | the masked trade update (loop) and the row removal, exactly as `ClosePosition` |
| PaperTrading.PaperTradingEngine.UpdatePositionPrices | src/paper_trading_polymarket.py:325-336 | the masked re-pricing (loop), exactly as `UpdatePositionPrices` |
| Polymarket.Classify | src/nice_funcs_polymarket.py:858-864 | an answer is a yes iff its upper case contains "YES" and not "NO", and a no iff it contains "NO" |
| Polymarket.CountVotes | src/nice_funcs_polymarket.py:856-859 | total_votes counts the successful responses, so never more than there are responses |
| Polymarket.CountYes | src/nice_funcs_polymarket.py:861-862 | yes_votes never exceeds total_votes |
| Polymarket.CountNo | src/nice_funcs_polymarket.py:863-864 | no_votes never exceeds total_votes |
| Polymarket.TallyBound | src/nice_funcs_polymarket.py:852-864 | yes_votes + no_votes ≤ total_votes |
| Polymarket.Approves | src/nice_funcs_polymarket.py:866-885 | approves iff the swarm answered, at least one vote was counted and yes/total ≥ threshold; so a positive threshold needs a yes vote, a threshold above 1 never approves, a unanimous tally with threshold ≤ 1 approves and an exception rejects |
| Polymarket.AiValidateTrade | src/nice_funcs_polymarket.py:852-885 | the tally loop returns exactly `Approves` of the responses |
| Polymarket.KeepWhales | src/nice_funcs_polymarket.py:723-724 | a row is kept, with its usd_value, iff both cells are numbers and price·size ≥ the minimum |
| Polymarket.KeepWhalesSingle | src/nice_funcs_polymarket.py:723-724 | one row gives itself with its usd_value when it qualifies, and nothing otherwise |
| Polymarket.KeepWhalesAppend | src/nice_funcs_polymarket.py:723-724 | the filter keeps the rows' order and repeats: filtering a concatenation filters each part |
| Polymarket.ZeroValued | src/nice_funcs_polymarket.py:720-721 | without both columns every row gets usd_value 0 |
| Polymarket.GetRecentTrades | src/nice_funcs_polymarket.py:711-728 | no rows or an unconvertible cell give nothing; every kept row reaches the minimum; with both columns and convertible cells the result is exactly the whale filter of the rows, in order; without them all rows or none, depending on 0 ≥ minimum |
| Polymarket.MarketOrderPrice | src/nice_funcs_polymarket.py:393-410 | a BUY (any case) takes asks[0], other sides bids[0]; no book or an empty relevant side gives no price |
| Polymarket.LiveSideIgnoresCase | src/nice_funcs_polymarket.py:401 | "buy" and "BUY" are priced alike on the live path |
| Polymarket.OrDefault | src/nice_funcs_polymarket.py:287-288 | `s or default`: s when non-empty, exactly the default when empty |
| Polymarket.PaperMarketOrderRequest | src/nice_funcs_polymarket.py:369-384 | a paper market order is recorded at price 0.50 with the size unconverted, type MARKET; slug and title are kept when non-empty and otherwise are "unknown" and "Unknown Market"; empty notes become "Market order (simulated price)" |
| Polymarket.PaperLimitOrderRequest | src/nice_funcs_polymarket.py:286-295 | a paper limit order keeps the price, size, side and notes, type LIMIT; slug and title are kept when non-empty and otherwise are "unknown" and "Unknown Market" |
| Polymarket.PlaceMarketOrderPaper | src/nice_funcs_polymarket.py:367-389 | without an engine: None; otherwise exactly the engine's `place_order` on that request |
| Polymarket.PlaceLimitOrderPaper | src/nice_funcs_polymarket.py:281-301 | without an engine: None; otherwise exactly the engine's `place_order` on that request |
| Polymarket.PaperMarketBuyGate | src/nice_funcs_polymarket.py:369-381 | a paper market BUY is refused iff 0.50·size exceeds the balance |
| Polymarket.PaperLowercaseBuyIsNotABuy | src/nice_funcs_polymarket.py:379 | a paper "buy" is passed through unchanged and treated as a SELL: accepted whatever the balance, opens no position |
| Polymarket.RowsOfMembers | src/nice_funcs_polymarket.py:569 | the market filter keeps exactly the rows of that market |
| Polymarket.RowsOf | src/nice_funcs_polymarket.py:569 | the market filter is never longer than the table |
| Polymarket.RowsOfAppend | src/nice_funcs_polymarket.py:569 | the market filter keeps the order of the rows: filtering a concatenation filters each part |
| Polymarket.Shares | src/nice_funcs_polymarket.py:571-581 | yes_shares is 0 or the size of some YES row, and no_shares is 0 or the size of some NO row |
| Polymarket.SharesStep | src/nice_funcs_polymarket.py:574-581 | one more row overwrites yes_shares if its outcome contains "yes", else no_shares if it contains "no", else changes nothing |
| Polymarket.Valued | src/nice_funcs_polymarket.py:586-594 | the holding reports the shares, yes_value = yes_shares·yes_price, no_value = no_shares·no_price and total_value = yes_value + no_value |
| Polymarket.GetPositionForMarket | src/nice_funcs_polymarket.py:563-598 | no positions gives zeros; otherwise the loop's shares are those of the market's rows, valued at the prices |
| Polymarket.LastYesRowWins | src/nice_funcs_polymarket.py:578-579 | yes_shares is the size of the last YES row, not a sum |
| Polymarket.NoYesRowNoYesShares | src/nice_funcs_polymarket.py:571-579 | without a YES row yes_shares stays 0 |
| Polymarket.LastNoRowWins | src/nice_funcs_polymarket.py:580-581 | no_shares is the size of the last NO row |
| Polymarket.UnknownCountsAsNo | src/nice_funcs_polymarket.py:580-581 | the substring tests are loose: an "Unknown" outcome is a NO holding and an "UNKNOWN" answer a no vote |
| Polymarket.FormatUsd | src/nice_funcs_polymarket.py:920-927 | M tier iff ≥ 1,000,000, K tier iff in [1,000, 1,000,000), dollars below, with the printed number scaled accordingly |
| WhaleTracker.MatchedFields | src/agents/whale_tracker_polymarket.py:208-221 | price and size are read only from a matched-trade message, and are read whenever its payload is an object whose two fields `float` accepts |
| WhaleTracker.WhaleThresholdExamples | src/agents/whale_tracker_polymarket.py:53 | 0.02 × 600000 is a whale and 0.02 × 100000 is not |
| WhaleTracker.IsWhaleTrade | src/agents/whale_tracker_polymarket.py:221-224 | a zero price or size qualifies only when the minimum is at most 0 |
| WhaleTracker.UpsertUnseen | src/agents/whale_tracker_polymarket.py:303-318 | an unseen wallet adds one row with trade_count 1, first_seen = last_seen, win_rate, total_volume and profit_loss from the stats (0 for missing), others untouched |
| WhaleTracker.UpsertSeen | src/agents/whale_tracker_polymarket.py:293-302 | a seen wallet keeps the row count, gets trade_count + 1 and a new last_seen, stats overwritten only when non-empty, other wallets untouched |
| WhaleTracker.UpsertWallet | src/agents/whale_tracker_polymarket.py:291-320 | afterwards the wallet is registered; one row is added iff it was not; every earlier row keeps its address, and rows of other wallets are unchanged |
| WhaleTracker.TouchAllSightings | src/agents/whale_tracker_polymarket.py:297 | the masked increment adds one sighting per row of the wallet |
| WhaleTracker.UpsertKeepsRegistry | src/agents/whale_tracker_polymarket.py:291-320 | addresses stay unique and the total trade count grows by exactly one |
| WhaleTracker.CopySize | src/agents/whale_tracker_polymarket.py:344-347 | the copy size is the minimum of the whale's share and MAX_POSITION_SIZE, so never above it |
| WhaleTracker.CopySizeExample | src/agents/whale_tracker_polymarket.py:344-347 | $50,000 at 10% with a $100 cap copies $100; $500 copies $50 |
| WhaleTracker.TokenFor | src/agents/whale_tracker_polymarket.py:368 | the placeholder token is the market slug followed by "_YES_TOKEN" for a YES whale and "_NO_TOKEN" for any other side |
| WhaleTracker.AiRejectionChangesNothing | src/agents/whale_tracker_polymarket.py:335-339 | an AI rejection returns before any counter or table changes |
| WhaleTracker.InsufficientBalanceOnlyCounts | src/agents/whale_tracker_polymarket.py:354-359 | after approval a short balance only counts the validation; no signal is appended |
| WhaleTracker.CopyExecutePath | src/agents/whale_tracker_polymarket.py:361-405 | exactly one signal (our side = whale side, our size = copy size, consensus = threshold, PENDING, executed iff an id came back); the order is a BUY no larger than the cap; trades_copied + 1 iff executed |
| WhaleTracker.EvaluateCopy | src/agents/whale_tracker_polymarket.py:322-411 | ai_validated_trades + 1 iff the swarm approves; one signal is appended iff it approves, the balance covers the copy size and auto-copy is on; earlier signals, whale tables, detection and tracking counters are unchanged; trades_copied grows by at most one |
| WhaleTracker.InitialStateValid | src/agents/whale_tracker_polymarket.py:99-105 | a new agent satisfies the bookkeeping invariant |
| WhaleTracker.CountExecutedBound | src/agents/whale_tracker_polymarket.py:381-405 | each signal contributes at most one copied trade |
| WhaleTracker.ValidCopiedBound | src/agents/whale_tracker_polymarket.py:335-405 | under the invariant trades_copied ≤ copy signals ≤ ai_validated_trades |
| WhaleTracker.OnMessage | src/agents/whale_tracker_polymarket.py:191-230 | total_trades_tracked grows by one iff the message is an activity/orders_matched object; an undecodable or non-object message changes nothing |
| WhaleTracker.OnMatched | src/agents/whale_tracker_polymarket.py:219-225 | the counted trade leaves tracking and connection alone and either changes nothing or adds exactly one whale detection; a non-object payload changes nothing |
| WhaleTracker.ProcessWhale | src/agents/whale_tracker_polymarket.py:232-289 | one more whale detection, tracking and connection unchanged; a payload whose price or size `float` refuses only counts the detection |
| WhaleTracker.OnMatchedFrame | src/agents/whale_tracker_polymarket.py:219-225 | after counting, only the whale path changes counters: whale_trades_detected + 1 iff the trade qualifies |
| WhaleTracker.MessageTracking | src/agents/whale_tracker_polymarket.py:196-213 | total_trades_tracked + 1 only for an 'activity'/'orders_matched' object; 'subscribed' only sets ws_connected; every other message changes nothing |
| WhaleTracker.ProcessWhaleFrame | src/agents/whale_tracker_polymarket.py:232-234 | `process_whale_trade` adds one detection and at most one validation, nothing else among the counters |
| WhaleTracker.WhaleIffQualifies | src/agents/whale_tracker_polymarket.py:219-225 | a message reaches `process_whale_trade` iff it is a matched trade whose price·size reaches the minimum |
| WhaleTracker.MissingFieldsNeverQualify | src/agents/whale_tracker_polymarket.py:219-224 | a missing price or size reads as 0 and never qualifies |
| WhaleTracker.ProcessWhaleRecords | src/agents/whale_tracker_polymarket.py:251-289 | exactly one whale row (not validated, not copied, with win rate 0 when stats are empty), the wallet upsert, and no copy evaluation unless quality and auto-copy |
| WhaleTracker.EvaluateCopyKeepsCounts | src/agents/whale_tracker_polymarket.py:335-405 | the copy decision keeps signals ≤ validations and trades_copied = executed signals, and touches no other table |
| WhaleTracker.MessagePreservesValid | src/agents/whale_tracker_polymarket.py:191-230 | every message keeps the invariant: detected = whale rows = total sightings ≤ tracked, validated ≤ detected, signals ≤ validated, copied = executed signals, unique wallets; afterwards trades_copied ≤ ai_validated_trades |
| WhaleTracker.OnMatchedKeepsValid | src/agents/whale_tracker_polymarket.py:212-225 | the matched-trade path keeps the invariant after its count |
| WhaleTracker.ProcessWhaleKeepsValid | src/agents/whale_tracker_polymarket.py:232-289 | `process_whale_trade` keeps the invariant |
| WhaleTracker.WhaleTrackerAgent.constructor | src/agents/whale_tracker_polymarket.py:97-110 | a new agent is disconnected, with zero counters and empty tables |
| WhaleTracker.WhaleTrackerAgent.OnWsMessage | src/agents/whale_tracker_polymarket.py:191-230 | updates the fields exactly as `OnMessage` and keeps the invariant |
| WhaleTracker.WhaleTrackerAgent.ProcessWhaleTrade | src/agents/whale_tracker_polymarket.py:232-289 | updates the fields exactly as `ProcessWhale` |
| WhaleTracker.WhaleTrackerAgent.UpdateWhaleWallet | src/agents/whale_tracker_polymarket.py:291-320 | the masked upsert (loop), exactly as `UpsertWallet` |
| WhaleTracker.WhaleTrackerAgent.EvaluateCopyTrade | src/agents/whale_tracker_polymarket.py:322-411 | updates the fields exactly as `EvaluateCopy`, with the vote tally run by `AiValidateTrade` |

## Left out

- File I/O: the CSV loading and saving in both classes and `csv_lock`. The
  tables are in-memory sequences, and a new engine or agent starts empty
  rather than from saved history.
- The WebSocket connection, reconnect and ping threads, the status loop and
  `run`. These are network I/O and threads. A feed message enters the model
  already decoded as a `FeedMessage`.
- Console output, and the decimal formatting inside `format_usd` beyond the
  tier and the scaled number.
- The HTTP/CLOB wrappers: markets, prices, order book, positions, trader
  stats, balance, cancellation and the live order posting of
  `place_limit_order`. Their results are parameters.
- The live path of `place_market_order`: only its price choice
  (`MarketOrderPrice`) is modelled, not the `place_limit_order` call that
  follows.
- `SwarmAgent` and the market lookup in `ai_validate_trade`. They are
  foreign calls: their answer is a parameter, and `None` stands for any
  exception they raise.
- The stubs `close_position` and `track_whale_wallet`. They contain no
  logic.
- Module-level environment loading and client set-up. `PAPER_TRADING_ENABLED`
  is assumed true: the copy path reaches the engine only through the
  `place_market_order` parameter.
- `WhaleTracker.EvaluateCopy`: the `notes` argument of the copy order (the
  wallet prefix and the win rate formatted to one decimal) and the
  `whale_win_rate` parameter, used only there and in console output, are not
  modelled. `MarketOrderCall` carries no notes, so the note text that
  reaches the paper ledger's trade row is not captured.
- Clocks and ids.
  - Timestamps and trade ids are supplied by the caller.
  - Ids need not be unique (the source's id has one-second resolution), and
    no property relies on uniqueness.
  - In `_update_whale_wallet`, first_seen and last_seen of a new wallet read
    the clock twice; the model uses one reading.
- Text.
  - Case mapping is ASCII-only; Python's `upper()`/`lower()` also map
    non-ASCII letters.
  - Payload fields that are not strings (an `eventSlug` that is a number,
    say) are not modelled.
- `WhaleTracker.OnMessage`: two exceptions are modelled, and both are
  swallowed after the count. A failed `float` conversion is one. A payload
  that is not an object is the other: it is read as `None`. Any other
  exception inside the handler is not modelled.
- `PaperLedger.PerformanceSummary`: numpy divides by a zero starting balance
  without raising and yields an infinity or NaN; `NonFinite` stands for
  either, and the model does not say which.
- `WhaleTracker.TokenFor`: the whale's side comes from the feed, where it is
  a trade side rather than an outcome; the model does not assume which
  values occur and states the token for every side.
- `Polymarket.GetRecentTrades`: cells are modelled only as numbers, missing
  or unconvertible. A NaN row is dropped because NaN fails the comparison.
  The model does not capture NaN arithmetic.
- Floating point: all arithmetic is exact on reals. Rounding in `price *
  size`, in the percentage arithmetic and at the thresholds is not modelled.
- Integer typing of counters: counters are `nat`s, and the CSV round-trip of
  their types is not modelled.

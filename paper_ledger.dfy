/** The simulated ("paper") trading ledger as values: the three tables and the
    balance of a `PaperTradingEngine`, and one function per operation that
    says what the table state is afterwards. The engine class in module
    PaperTrading is proved to update its fields exactly as these functions
    say; the lemmas below are what the ledger promises. */
module PaperLedger {
  import opened Common

  type TradeId = string

  datatype TradeStatus = Open | Closed

  /** One row of the trades table. */
  datatype TradeRecord = TradeRecord(
    timestamp: Timestamp,
    tradeId: TradeId,
    marketSlug: string,
    marketTitle: string,
    side: string,
    tokenId: string,
    price: real,
    size: real,
    usdValue: real,
    orderType: string,
    status: TradeStatus,
    pnl: real,
    notes: string)

  /** One row of the open-positions table. */
  datatype Position = Position(
    marketSlug: string,
    marketTitle: string,
    tokenId: string,
    side: string,
    entryPrice: real,
    currentPrice: real,
    shares: real,
    entryValue: real,
    currentValue: real,
    unrealizedPnl: real,
    openedAt: Timestamp)

  /** One row of the append-only balance history. */
  datatype BalanceSnapshot = BalanceSnapshot(timestamp: Timestamp, balance: real, totalPnl: real)

  /** The arguments of `place_order`. */
  datatype OrderRequest = OrderRequest(
    marketSlug: string,
    marketTitle: string,
    tokenId: string,
    side: string,
    price: real,
    size: real,
    orderType: string,
    notes: string)

  /** The whole state of an engine. */
  datatype Ledger = Ledger(
    startingBalance: real,
    balance: real,
    trades: seq<TradeRecord>,
    positions: seq<Position>,
    history: seq<BalanceSnapshot>)

  /** A freshly constructed engine: empty tables, balance at the start. */
  function Fresh(startingBalance: real): Ledger {
    Ledger(startingBalance, startingBalance, [], [], [])
  }

  // ---------------------------------------------------------------------------
  // Sums over the tables
  // ---------------------------------------------------------------------------

  /** The P&L a trade contributes to the realized total: its pnl if CLOSED. */
  function ClosedPnl(t: TradeRecord): real {
    if t.status == Closed then t.pnl else 0.0
  }

  /** `trades_df[status == 'CLOSED']['pnl'].sum()`. */
  function RealizedPnl(trades: seq<TradeRecord>): real {
    if trades == [] then 0.0
    else RealizedPnl(trades[..|trades| - 1]) + ClosedPnl(trades[|trades| - 1])
  }

  /** `positions_df['unrealized_pnl'].sum()`. */
  function UnrealizedPnl(positions: seq<Position>): real {
    if positions == [] then 0.0
    else UnrealizedPnl(positions[..|positions| - 1]) + positions[|positions| - 1].unrealizedPnl
  }

  lemma RealizedPnlAppend(trades: seq<TradeRecord>, t: TradeRecord)
    ensures RealizedPnl(trades + [t]) == RealizedPnl(trades) + ClosedPnl(t)
  {
    assert (trades + [t])[..|trades|] == trades;
  }

  /** The balance equation the engine re-establishes after every order:
      balance = starting balance + realized P&L. */
  predicate Balanced(l: Ledger) {
    l.balance == l.startingBalance + RealizedPnl(l.trades)
  }

  /** Every position row's unrealized P&L is its current value minus its entry value. */
  predicate Marked(p: Position) {
    p.unrealizedPnl == p.currentValue - p.entryValue
  }

  predicate AllMarked(positions: seq<Position>) {
    forall i :: 0 <= i < |positions| ==> Marked(positions[i])
  }

  // ---------------------------------------------------------------------------
  // _recalculate_balance
  // ---------------------------------------------------------------------------

  /** `_recalculate_balance`: with no trades the balance is reset to the start
      and nothing is logged; otherwise the balance is recomputed from closed
      trades and one snapshot is appended. */
  function Recalculate(l: Ledger, now: Timestamp): (r: Ledger)
    ensures Balanced(r)
    ensures r.startingBalance == l.startingBalance && r.trades == l.trades && r.positions == l.positions
    ensures l.trades == [] ==> r.history == l.history
    ensures l.trades != [] ==>
              r.history == l.history + [BalanceSnapshot(now, r.balance, RealizedPnl(l.trades) + UnrealizedPnl(l.positions))]
  {
    if l.trades == [] then
      l.(balance := l.startingBalance)
    else
      var realized := RealizedPnl(l.trades);
      var unrealized := UnrealizedPnl(l.positions);
      var balance := l.startingBalance + realized;
      l.(balance := balance, history := l.history + [BalanceSnapshot(now, balance, realized + unrealized)])
  }

  // ---------------------------------------------------------------------------
  // _add_position
  // ---------------------------------------------------------------------------

  /** The row `_add_position` appends: priced at entry, no unrealized P&L. */
  function NewPosition(marketSlug: string, marketTitle: string, tokenId: string, side: string,
                       entryPrice: real, shares: real, entryValue: real, now: Timestamp): (p: Position)
    ensures Marked(p) && p.unrealizedPnl == 0.0
    ensures p.currentPrice == p.entryPrice == entryPrice && p.currentValue == p.entryValue == entryValue
  {
    Position(marketSlug, marketTitle, tokenId, side, entryPrice, entryPrice, shares,
             entryValue, entryValue, 0.0, now)
  }

  /** `_add_position`: appends one row; no existing row is touched. */
  function OpenPosition(l: Ledger, marketSlug: string, marketTitle: string, tokenId: string, side: string,
                        entryPrice: real, shares: real, entryValue: real, now: Timestamp): (r: Ledger)
    ensures r.startingBalance == l.startingBalance && r.balance == l.balance
    ensures r.trades == l.trades && r.history == l.history
    ensures |r.positions| == |l.positions| + 1 && r.positions[..|l.positions|] == l.positions
    ensures var p := r.positions[|l.positions|];
            AtPair(p, marketSlug, tokenId) && p.side == side && p.shares == shares
            && p.entryPrice == p.currentPrice == entryPrice && p.entryValue == p.currentValue == entryValue
            && Marked(p) && p.unrealizedPnl == 0.0
  {
    l.(positions := l.positions + [NewPosition(marketSlug, marketTitle, tokenId, side,
                                                entryPrice, shares, entryValue, now)])
  }

  // ---------------------------------------------------------------------------
  // _close_position
  // ---------------------------------------------------------------------------

  /** The position mask of `_close_position`. */
  predicate AtPair(p: Position, marketSlug: string, tokenId: string) {
    p.marketSlug == marketSlug && p.tokenId == tokenId
  }

  /** The trade mask of `_close_position`: OPEN BUY trades of the pair. */
  predicate IsOpenBuyAt(t: TradeRecord, marketSlug: string, tokenId: string) {
    t.marketSlug == marketSlug && t.tokenId == tokenId && t.side == "BUY" && t.status == Open
  }

  /** The index of `positions_df[mask].iloc[0]`, if the mask selects anything. */
  function FirstAtPair(positions: seq<Position>, marketSlug: string, tokenId: string): (r: Option<nat>)
    ensures r.Some? ==> r.value < |positions| && AtPair(positions[r.value], marketSlug, tokenId)
    ensures r.Some? ==> forall j :: 0 <= j < r.value ==> !AtPair(positions[j], marketSlug, tokenId)
    ensures r.None? ==> forall j :: 0 <= j < |positions| ==> !AtPair(positions[j], marketSlug, tokenId)
  {
    if positions == [] then None
    else if AtPair(positions[0], marketSlug, tokenId) then Some(0)
    else match FirstAtPair(positions[1..], marketSlug, tokenId)
      case None => None
      case Some(k) => Some(k + 1)
  }

  /** One row of the masked update `trades_df.loc[buy_trade_mask, ...] = ...`. */
  function CloseRow(t: TradeRecord, marketSlug: string, tokenId: string, pnl: real): TradeRecord {
    if IsOpenBuyAt(t, marketSlug, tokenId) then t.(status := Closed, pnl := pnl) else t
  }

  function CloseOpenBuys(trades: seq<TradeRecord>, marketSlug: string, tokenId: string, pnl: real): seq<TradeRecord> {
    seq(|trades|, i requires 0 <= i < |trades| => CloseRow(trades[i], marketSlug, tokenId, pnl))
  }

  /** `positions_df[~mask]`: the rows of other pairs, in their order. */
  function RemovePair(positions: seq<Position>, marketSlug: string, tokenId: string): (r: seq<Position>)
    ensures |r| <= |positions|
    ensures forall p :: p in r <==> p in positions && !AtPair(p, marketSlug, tokenId)
  {
    if positions == [] then []
    else
      var rest := RemovePair(positions[1..], marketSlug, tokenId);
      assert forall p :: p in positions <==> p == positions[0] || p in positions[1..];
      if AtPair(positions[0], marketSlug, tokenId) then rest else [positions[0]] + rest
  }

  /** The filter keeps order: filtering a concatenation filters each part,
      so together with its one-row case `RemovePair` is `positions_df[~mask]`
      row for row. */
  lemma {:induction false} RemovePairAppend(a: seq<Position>, b: seq<Position>, marketSlug: string, tokenId: string)
    ensures RemovePair(a + b, marketSlug, tokenId) == RemovePair(a, marketSlug, tokenId) + RemovePair(b, marketSlug, tokenId)
  {
    if a == [] {
      assert a + b == b;
    } else {
      assert (a + b)[0] == a[0] && (a + b)[1..] == a[1..] + b;
      RemovePairAppend(a[1..], b, marketSlug, tokenId);
      var x, y := RemovePair(a[1..], marketSlug, tokenId), RemovePair(b, marketSlug, tokenId);
      if AtPair(a[0], marketSlug, tokenId) {
        assert RemovePair(a + b, marketSlug, tokenId) == RemovePair(a[1..] + b, marketSlug, tokenId);
      } else {
        assert RemovePair(a + b, marketSlug, tokenId) == [a[0]] + RemovePair(a[1..] + b, marketSlug, tokenId);
        assert ([a[0]] + x) + y == [a[0]] + (x + y);
      }
    }
  }

  /** Each row of another pair is kept as often as it occurs; rows of the
      pair are all dropped. */
  lemma {:induction false} RemovePairCounts(positions: seq<Position>, marketSlug: string, tokenId: string)
    ensures forall p :: multiset(RemovePair(positions, marketSlug, tokenId))[p]
                          == if AtPair(p, marketSlug, tokenId) then 0 else multiset(positions)[p]
  {
    if positions != [] {
      RemovePairCounts(positions[1..], marketSlug, tokenId);
      assert positions == [positions[0]] + positions[1..];
      assert multiset(positions) == multiset{positions[0]} + multiset(positions[1..]);
    }
  }

  /** `_close_position`: with no matching row nothing changes; otherwise the
      P&L of the FIRST matching row is stamped on every open BUY trade of the
      pair, the exit value is credited and every row of the pair is removed. */
  function ClosePosition(l: Ledger, marketSlug: string, tokenId: string, exitPrice: real, shares: real): (r: Ledger)
    ensures FirstAtPair(l.positions, marketSlug, tokenId).None? ==> r == l
    ensures r.startingBalance == l.startingBalance && r.history == l.history && |r.trades| == |l.trades|
    ensures FirstAtPair(l.positions, marketSlug, tokenId).Some? ==>
              var pnl := exitPrice * shares - l.positions[FirstAtPair(l.positions, marketSlug, tokenId).value].entryValue;
              && r.balance == l.balance + exitPrice * shares
              && (forall i :: 0 <= i < |l.trades| && IsOpenBuyAt(l.trades[i], marketSlug, tokenId) ==>
                    r.trades[i] == l.trades[i].(status := Closed, pnl := pnl))
              && (forall i :: 0 <= i < |l.trades| && !IsOpenBuyAt(l.trades[i], marketSlug, tokenId) ==>
                    r.trades[i] == l.trades[i])
              && r.positions == RemovePair(l.positions, marketSlug, tokenId)
              && (forall j :: 0 <= j < |r.positions| ==> !AtPair(r.positions[j], marketSlug, tokenId))
  {
    match FirstAtPair(l.positions, marketSlug, tokenId)
    case None => l
    case Some(k) =>
      var exitValue := exitPrice * shares;
      var pnl := exitValue - l.positions[k].entryValue;
      l.(balance := l.balance + exitValue,
         trades := CloseOpenBuys(l.trades, marketSlug, tokenId, pnl),
         positions := RemovePair(l.positions, marketSlug, tokenId))
  }

  // ---------------------------------------------------------------------------
  // place_order
  // ---------------------------------------------------------------------------

  /** The trades-table row `place_order` appends. */
  function NewTrade(o: OrderRequest, id: TradeId, now: Timestamp): (t: TradeRecord)
    ensures t.status == Open && t.pnl == 0.0 && t.usdValue == o.price * o.size
    ensures t.side == o.side && t.marketSlug == o.marketSlug && t.tokenId == o.tokenId && t.tradeId == id
  {
    TradeRecord(now, id, o.marketSlug, o.marketTitle, o.side, o.tokenId, o.price, o.size,
                o.price * o.size, o.orderType, Open, 0.0, o.notes)
  }

  /** `place_order`: a BUY dearer than the balance is refused (`None`, nothing
      changes); otherwise the trade is appended, a BUY debits the balance and
      opens a row, anything else closes the pair, and the balance is then
      recomputed from the trades, which overwrites the debit and the credit. */
  function PlaceOrder(l: Ledger, o: OrderRequest, id: TradeId, now: Timestamp): (r: (Ledger, Option<TradeId>))
    ensures r.1.None? <==> o.side == "BUY" && o.price * o.size > l.balance
    ensures r.1.None? ==> r.0 == l
    ensures r.1.Some? ==> r.1.value == id && Balanced(r.0) && r.0.startingBalance == l.startingBalance
  {
    if o.side == "BUY" && o.price * o.size > l.balance then (l, None)
    else (Recalculate(Record(l, o, id, now), now), Some(id))
  }

  /** The body of an accepted `place_order` before its final recalculation:
      append the trade, then debit and open (BUY) or close (any other side). */
  function Record(l: Ledger, o: OrderRequest, id: TradeId, now: Timestamp): (r: Ledger)
    ensures r.startingBalance == l.startingBalance && r.history == l.history
    ensures |r.trades| == |l.trades| + 1 && r.trades[|l.trades|] == NewTrade(o, id, now)
    ensures o.side == "BUY" ==>
              && r.balance == l.balance - o.price * o.size
              && r.trades == l.trades + [NewTrade(o, id, now)]
              && |r.positions| == |l.positions| + 1 && r.positions[..|l.positions|] == l.positions
    ensures o.side != "BUY" ==>
              forall j :: 0 <= j < |r.positions| ==> !AtPair(r.positions[j], o.marketSlug, o.tokenId)
  {
    var usdValue := o.price * o.size;
    var recorded := l.(trades := l.trades + [NewTrade(o, id, now)]);
    if o.side == "BUY" then
      OpenPosition(recorded.(balance := recorded.balance - usdValue),
                   o.marketSlug, o.marketTitle, o.tokenId, o.side, o.price, o.size, usdValue, now)
    else
      ClosePosition(recorded, o.marketSlug, o.tokenId, o.price, o.size)
  }

  // ---------------------------------------------------------------------------
  // update_position_prices
  // ---------------------------------------------------------------------------

  /** One row of the masked update of `update_position_prices`. */
  function Remark(p: Position, marketSlug: string, price: real): (q: Position)
    ensures p.marketSlug != marketSlug ==> q == p
    ensures p.marketSlug == marketSlug ==>
              Marked(q) && q.currentPrice == price && q.currentValue == p.shares * price
              && q == p.(currentPrice := q.currentPrice, currentValue := q.currentValue, unrealizedPnl := q.unrealizedPnl)
  {
    if p.marketSlug == marketSlug then
      p.(currentPrice := price, currentValue := p.shares * price, unrealizedPnl := p.shares * price - p.entryValue)
    else p
  }

  /** `update_position_prices`: re-marks every row of the market. */
  function UpdatePositionPrices(l: Ledger, marketSlug: string, price: real): (r: Ledger)
    ensures r.balance == l.balance && r.trades == l.trades && r.history == l.history
    ensures r.startingBalance == l.startingBalance && |r.positions| == |l.positions|
    ensures forall i :: 0 <= i < |l.positions| && l.positions[i].marketSlug == marketSlug ==>
              var p, q := l.positions[i], r.positions[i];
              Marked(q) && q.currentPrice == price && q.currentValue == p.shares * price
              && q == p.(currentPrice := q.currentPrice, currentValue := q.currentValue, unrealizedPnl := q.unrealizedPnl)
    ensures forall i :: 0 <= i < |l.positions| && l.positions[i].marketSlug != marketSlug ==>
              r.positions[i] == l.positions[i]
  {
    l.(positions := seq(|l.positions|, i requires 0 <= i < |l.positions| => Remark(l.positions[i], marketSlug, price)))
  }

  // ---------------------------------------------------------------------------
  // get_performance_summary
  // ---------------------------------------------------------------------------

  /** A float64 quotient: a number, or the infinity or NaN that numpy yields
      (with a warning, not an exception) for a division by zero. */
  datatype Quotient = Finite(value: real) | NonFinite

  /** The dictionary `get_performance_summary` returns. */
  datatype Summary = Summary(
    totalTrades: nat,
    winningTrades: nat,
    losingTrades: nat,
    winRate: real,
    totalPnl: real,
    avgWin: real,
    avgLoss: real,
    currentBalance: real,
    totalReturn: Quotient)

  function CountClosed(trades: seq<TradeRecord>): nat {
    if trades == [] then 0
    else CountClosed(trades[..|trades| - 1]) + (if trades[|trades| - 1].status == Closed then 1 else 0)
  }

  predicate IsWin(t: TradeRecord) { t.status == Closed && t.pnl > 0.0 }

  predicate IsLoss(t: TradeRecord) { t.status == Closed && t.pnl < 0.0 }

  function CountWins(trades: seq<TradeRecord>): nat {
    if trades == [] then 0
    else CountWins(trades[..|trades| - 1]) + (if IsWin(trades[|trades| - 1]) then 1 else 0)
  }

  function CountLosses(trades: seq<TradeRecord>): nat {
    if trades == [] then 0
    else CountLosses(trades[..|trades| - 1]) + (if IsLoss(trades[|trades| - 1]) then 1 else 0)
  }

  function SumWins(trades: seq<TradeRecord>): real {
    if trades == [] then 0.0
    else SumWins(trades[..|trades| - 1]) + (if IsWin(trades[|trades| - 1]) then trades[|trades| - 1].pnl else 0.0)
  }

  function SumLosses(trades: seq<TradeRecord>): real {
    if trades == [] then 0.0
    else SumLosses(trades[..|trades| - 1]) + (if IsLoss(trades[|trades| - 1]) then trades[|trades| - 1].pnl else 0.0)
  }

  /** `get_performance_summary`: zeros and the balance without closed
      trades; otherwise the closed-trade count, the wins (pnl > 0) and
      losses (pnl < 0) with their means, the win rate and the realized P&L,
      and the return on the starting balance, which is not a finite number
      when the starting balance is 0. */
  function PerformanceSummary(l: Ledger): (r: Summary)
    ensures r.totalTrades == CountClosed(l.trades) && r.currentBalance == l.balance
    ensures CountClosed(l.trades) == 0 ==> r == Summary(0, 0, 0, 0.0, 0.0, 0.0, 0.0, l.balance, Finite(0.0))
    ensures CountClosed(l.trades) > 0 ==>
              && r.winningTrades == CountWins(l.trades) && r.losingTrades == CountLosses(l.trades)
              && r.winRate == (CountWins(l.trades) as real / CountClosed(l.trades) as real) * 100.0
              && r.totalPnl == RealizedPnl(l.trades)
              && r.avgWin == (if CountWins(l.trades) > 0 then SumWins(l.trades) / CountWins(l.trades) as real else 0.0)
              && r.avgLoss == (if CountLosses(l.trades) > 0 then SumLosses(l.trades) / CountLosses(l.trades) as real else 0.0)
              && r.totalReturn == (if l.startingBalance == 0.0 then NonFinite
                                   else Finite(((l.balance - l.startingBalance) / l.startingBalance) * 100.0))
  {
    var total := CountClosed(l.trades);
    if total == 0 then
      Summary(0, 0, 0, 0.0, 0.0, 0.0, 0.0, l.balance, Finite(0.0))
    else
      var winning := CountWins(l.trades);
      var losing := CountLosses(l.trades);
      var totalReturn :=
        if l.startingBalance == 0.0 then NonFinite
        else Finite(((l.balance - l.startingBalance) / l.startingBalance) * 100.0);
      Summary(
        total, winning, losing,
        (winning as real / total as real) * 100.0,
        RealizedPnl(l.trades),
        if winning > 0 then SumWins(l.trades) / winning as real else 0.0,
        if losing > 0 then SumLosses(l.trades) / losing as real else 0.0,
        l.balance,
        totalReturn)
  }

  // ---------------------------------------------------------------------------
  // What the ledger promises
  // ---------------------------------------------------------------------------

  /** Recalculating twice gives the same balance; the second call only repeats
      the last snapshot under a new timestamp. */
  lemma RecalculateIdempotent(l: Ledger, t1: Timestamp, t2: Timestamp)
    ensures var once := Recalculate(l, t1);
            var twice := Recalculate(once, t2);
            twice.balance == once.balance && twice.trades == once.trades && twice.positions == once.positions
            && (l.trades != [] ==>
                  |once.history| > 0
                  && twice.history == once.history + [once.history[|once.history| - 1].(timestamp := t2)])
  {
  }

  /** A BUY dearer than the balance is refused and leaves every table and the
      balance as they were. */
  lemma UnaffordableBuyRejected(l: Ledger, o: OrderRequest, id: TradeId, now: Timestamp)
    requires o.side == "BUY" && o.price * o.size > l.balance
    ensures PlaceOrder(l, o, id, now) == (l, None)
  {
  }

  /** An accepted BUY appends one OPEN trade and one fresh position row and
      touches no existing row, even of the same pair. Its debit does not
      survive the recalculation: the balance is the starting balance plus the
      realized P&L of the trades that were already there. */
  lemma {:induction false} AcceptedBuy(l: Ledger, o: OrderRequest, id: TradeId, now: Timestamp)
    requires o.side == "BUY" && o.price * o.size <= l.balance
    ensures var (r, res) := PlaceOrder(l, o, id, now);
            res == Some(id)
            && r.trades == l.trades + [NewTrade(o, id, now)]
            && r.positions == l.positions + [NewPosition(o.marketSlug, o.marketTitle, o.tokenId, o.side,
                                                         o.price, o.size, o.price * o.size, now)]
            && r.balance == l.startingBalance + RealizedPnl(l.trades)
            && (Balanced(l) ==> r.balance == l.balance)
  {
    var nt := NewTrade(o, id, now);
    var recorded := l.(trades := l.trades + [nt]);
    assert Record(l, o, id, now) == OpenPosition(recorded.(balance := recorded.balance - o.price * o.size),
      o.marketSlug, o.marketTitle, o.tokenId, o.side, o.price, o.size, o.price * o.size, now);
    RealizedPnlAppend(l.trades, nt);
  }

  /** A SELL (any side but "BUY") for a pair with no open position still
      records its trade and returns an id, but changes no position, no earlier
      trade and not the balance. */
  lemma {:induction false} SellWithoutPosition(l: Ledger, o: OrderRequest, id: TradeId, now: Timestamp)
    requires o.side != "BUY" && FirstAtPair(l.positions, o.marketSlug, o.tokenId).None?
    ensures var (r, res) := PlaceOrder(l, o, id, now);
            res == Some(id)
            && r.trades == l.trades + [NewTrade(o, id, now)]
            && r.positions == l.positions
            && r.balance == l.startingBalance + RealizedPnl(l.trades)
            && (Balanced(l) ==> r.balance == l.balance)
  {
    RealizedPnlAppend(l.trades, NewTrade(o, id, now));
  }

  /** A SELL for a pair with an open position: the P&L is the exit value minus
      the entry value of the FIRST row of the pair; every OPEN BUY trade of the
      pair is closed with that P&L, every other trade is left alone, the SELL
      row is appended as OPEN, and no row of the pair survives while every
      row of another pair does. */
  lemma {:induction false} SellWithPosition(l: Ledger, o: OrderRequest, id: TradeId, now: Timestamp, k: nat)
    requires o.side != "BUY" && FirstAtPair(l.positions, o.marketSlug, o.tokenId) == Some(k)
    ensures var (r, res) := PlaceOrder(l, o, id, now);
            var pnl := o.price * o.size - l.positions[k].entryValue;
            res == Some(id)
            && |r.trades| == |l.trades| + 1
            && r.trades[|l.trades|] == NewTrade(o, id, now)
            && (forall i :: 0 <= i < |l.trades| && IsOpenBuyAt(l.trades[i], o.marketSlug, o.tokenId) ==>
                  r.trades[i] == l.trades[i].(status := Closed, pnl := pnl))
            && (forall i :: 0 <= i < |l.trades| && !IsOpenBuyAt(l.trades[i], o.marketSlug, o.tokenId) ==>
                  r.trades[i] == l.trades[i])
            && r.positions == RemovePair(l.positions, o.marketSlug, o.tokenId)
            && (forall p :: p in r.positions ==> !AtPair(p, o.marketSlug, o.tokenId))
            && (forall p :: p in l.positions && !AtPair(p, o.marketSlug, o.tokenId) ==> p in r.positions)
  {
    var nt := NewTrade(o, id, now);
    var recorded := l.(trades := l.trades + [nt]);
    assert forall i :: 0 <= i < |l.trades| ==> recorded.trades[i] == l.trades[i];
    var closed := ClosePosition(recorded, o.marketSlug, o.tokenId, o.price, o.size);
    assert Record(l, o, id, now) == closed;
    assert PlaceOrder(l, o, id, now).0.trades == closed.trades;
    assert PlaceOrder(l, o, id, now).0.positions == closed.positions;
  }

  /** Trade rows are never removed, and a CLOSED trade is never revised by a
      later order: its P&L is fixed when it closes. */
  lemma ClosedTradesAreFinal(l: Ledger, o: OrderRequest, id: TradeId, now: Timestamp, i: nat)
    requires i < |l.trades| && l.trades[i].status == Closed
    ensures var r := PlaceOrder(l, o, id, now).0;
            |r.trades| >= |l.trades| && r.trades[i] == l.trades[i]
  {
  }

  /** Every accepted order appends exactly one balance snapshot; history rows
      are never rewritten. */
  lemma AcceptedOrderLogsOneSnapshot(l: Ledger, o: OrderRequest, id: TradeId, now: Timestamp)
    requires PlaceOrder(l, o, id, now).1.Some?
    ensures var r := PlaceOrder(l, o, id, now).0;
            |r.history| == |l.history| + 1 && r.history[..|l.history|] == l.history
            && r.history[|l.history|] == BalanceSnapshot(now, r.balance, RealizedPnl(r.trades) + UnrealizedPnl(r.positions))
  {
    var r := PlaceOrder(l, o, id, now).0;
    assert r.history[..|l.history|] == l.history;
  }

  /** Buy S shares at P and sell them at P2 on the same pair, starting from a
      fresh engine: the BUY trade closes with P&L (P2 - P) * S, the pair has no
      open position left, and the balance is the start plus that P&L. */
  lemma {:induction false} RoundTrip(start: real, buy: OrderRequest, sell: OrderRequest,
                                     id1: TradeId, id2: TradeId, t1: Timestamp, t2: Timestamp)
    requires buy.side == "BUY" && sell.side == "SELL"
    requires sell.marketSlug == buy.marketSlug && sell.tokenId == buy.tokenId && sell.size == buy.size
    requires buy.price * buy.size <= start
    ensures var (l1, r1) := PlaceOrder(Fresh(start), buy, id1, t1);
            var (l2, r2) := PlaceOrder(l1, sell, id2, t2);
            var pnl := (sell.price - buy.price) * buy.size;
            r1 == Some(id1) && r2 == Some(id2)
            && l2.trades == [NewTrade(buy, id1, t1).(status := Closed, pnl := pnl), NewTrade(sell, id2, t2)]
            && l2.positions == []
            && l2.balance == start + pnl
  {
    var b := NewTrade(buy, id1, t1);
    var s := NewTrade(sell, id2, t2);
    var pos := NewPosition(buy.marketSlug, buy.marketTitle, buy.tokenId, buy.side,
                           buy.price, buy.size, buy.price * buy.size, t1);
    AcceptedBuy(Fresh(start), buy, id1, t1);
    var l1 := PlaceOrder(Fresh(start), buy, id1, t1).0;
    assert l1.trades == [b] && l1.positions == [pos] && l1.balance == start;
    assert FirstAtPair(l1.positions, sell.marketSlug, sell.tokenId) == Some(0);
    var pnl := (sell.price - buy.price) * buy.size;
    assert sell.price * sell.size - pos.entryValue == pnl;
    SellWithPosition(l1, sell, id2, t2, 0);
    var l2 := PlaceOrder(l1, sell, id2, t2).0;
    assert IsOpenBuyAt(b, sell.marketSlug, sell.tokenId);
    assert l2.trades == [b.(status := Closed, pnl := pnl), s];
    assert RemovePair(l1.positions, sell.marketSlug, sell.tokenId) == [];
    assert RealizedPnl(l2.trades) == RealizedPnl(l2.trades[..1]) + ClosedPnl(s);
  }

  /** Two BUYs of one pair leave two separate position rows: nothing merges them. */
  lemma RepeatedBuysKeepSeparateRows(l: Ledger, o1: OrderRequest, o2: OrderRequest,
                                     id1: TradeId, id2: TradeId, t1: Timestamp, t2: Timestamp)
    requires Balanced(l) && o1.side == "BUY" && o2.side == "BUY"
    requires o1.price * o1.size <= l.balance && o2.price * o2.size <= l.balance
    ensures var l2 := PlaceOrder(PlaceOrder(l, o1, id1, t1).0, o2, id2, t2).0;
            l2.positions == l.positions
                            + [NewPosition(o1.marketSlug, o1.marketTitle, o1.tokenId, o1.side, o1.price, o1.size, o1.price * o1.size, t1),
                               NewPosition(o2.marketSlug, o2.marketTitle, o2.tokenId, o2.side, o2.price, o2.size, o2.price * o2.size, t2)]
  {
    AcceptedBuy(l, o1, id1, t1);
    var l1 := PlaceOrder(l, o1, id1, t1).0;
    AcceptedBuy(l1, o2, id2, t2);
  }

  /** A SELL at zero value on a pair whose two trades are open BUYs closes
      both with the loss of the FIRST position row: the realized P&L counts
      that row's entry value twice. */
  lemma {:induction false} LossyClose(l: Ledger, x: OrderRequest, id: TradeId, now: Timestamp, b1: TradeRecord, b2: TradeRecord)
    requires x.side != "BUY" && x.price * x.size == 0.0
    requires l.trades == [b1, b2] && IsOpenBuyAt(b1, x.marketSlug, x.tokenId) && IsOpenBuyAt(b2, x.marketSlug, x.tokenId)
    requires |l.positions| > 0 && AtPair(l.positions[0], x.marketSlug, x.tokenId)
    ensures var (r, res) := PlaceOrder(l, x, id, now);
            res.Some? && r.balance == l.startingBalance - 2.0 * l.positions[0].entryValue
  {
    var e := l.positions[0].entryValue;
    var s := NewTrade(x, id, now);
    assert FirstAtPair(l.positions, x.marketSlug, x.tokenId) == Some(0);
    SellWithPosition(l, x, id, now, 0);
    var r := PlaceOrder(l, x, id, now).0;
    var c1 := b1.(status := Closed, pnl := -e);
    var c2 := b2.(status := Closed, pnl := -e);
    assert r.trades == [c1, c2, s];
    assert RealizedPnl([c1]) == -e by { RealizedPnlAppend([], c1); }
    assert RealizedPnl([c1, c2]) == -2.0 * e by { RealizedPnlAppend([c1], c2); }
    assert RealizedPnl([c1, c2, s]) == -2.0 * e by { RealizedPnlAppend([c1, c2], s); assert [c1, c2] + [s] == [c1, c2, s]; }
  }

  /** The first BUY on a fresh engine: one trade, one row, balance unchanged. */
  lemma {:induction false} FirstBuy(start: real, o: OrderRequest, id: TradeId, now: Timestamp)
    requires o.side == "BUY" && o.price * o.size <= start
    ensures var (l1, r1) := PlaceOrder(Fresh(start), o, id, now);
            r1.Some? && Balanced(l1) && l1.balance == l1.startingBalance == start
            && l1.trades == [NewTrade(o, id, now)]
            && l1.positions == [NewPosition(o.marketSlug, o.marketTitle, o.tokenId, o.side, o.price, o.size, o.price * o.size, now)]
  {
    var b := NewTrade(o, id, now);
    AcceptedBuy(Fresh(start), o, id, now);
    assert RealizedPnl([b]) == 0.0 by { RealizedPnlAppend([], b); }
  }

  /** The BUY gate does not keep the balance non-negative: open BUYs reserve
      nothing (the debit is overwritten by the recalculation), and closing
      stamps the first row's loss on every open BUY of the pair. Two BUYs that
      each cost the whole starting balance, then a SELL worth nothing, leave
      the balance at minus the starting balance. */
  lemma {:induction false} BalanceCanGoNegative(start: real, o: OrderRequest, x: OrderRequest,
                                                id1: TradeId, id2: TradeId, id3: TradeId,
                                                t1: Timestamp, t2: Timestamp, t3: Timestamp)
    requires start > 0.0 && o.side == "BUY" && o.price * o.size == start
    requires x.side != "BUY" && x.marketSlug == o.marketSlug && x.tokenId == o.tokenId && x.price * x.size == 0.0
    ensures var (l1, r1) := PlaceOrder(Fresh(start), o, id1, t1);
            var (l2, r2) := PlaceOrder(l1, o, id2, t2);
            var (l3, r3) := PlaceOrder(l2, x, id3, t3);
            r1.Some? && r2.Some? && r3.Some? && l3.balance == -start
  {
    FirstBuy(start, o, id1, t1);
    var l1 := PlaceOrder(Fresh(start), o, id1, t1).0;
    AcceptedBuy(l1, o, id2, t2);
    var l2 := PlaceOrder(l1, o, id2, t2).0;
    assert l2.positions[0] == l1.positions[0];
    LossyClose(l2, x, id3, t3, NewTrade(o, id1, t1), NewTrade(o, id2, t2));
  }

  /** Position rows stay internally consistent (unrealized = current − entry)
      through every order and every re-mark. */
  lemma {:induction false} OrdersKeepPositionsMarked(l: Ledger, o: OrderRequest, id: TradeId, now: Timestamp)
    requires AllMarked(l.positions)
    ensures AllMarked(PlaceOrder(l, o, id, now).0.positions)
  {
    var r := PlaceOrder(l, o, id, now).0;
    if o.side != "BUY" {
      match FirstAtPair(l.positions, o.marketSlug, o.tokenId)
      case None =>
      case Some(k) =>
        forall i | 0 <= i < |r.positions| ensures Marked(r.positions[i]) {
          assert r.positions[i] in r.positions;
        }
    }
  }

  lemma RemarkKeepsPositionsMarked(l: Ledger, marketSlug: string, price: real)
    requires AllMarked(l.positions)
    ensures AllMarked(UpdatePositionPrices(l, marketSlug, price).positions)
  {
  }

  // ---------------------------------------------------------------------------
  // Performance summary
  // ---------------------------------------------------------------------------

  lemma {:induction false} WinsAndLossesAreClosed(trades: seq<TradeRecord>)
    ensures CountWins(trades) + CountLosses(trades) <= CountClosed(trades)
  {
    if trades != [] {
      WinsAndLossesAreClosed(trades[..|trades| - 1]);
    }
  }

  lemma {:induction false} WinsSumPositive(trades: seq<TradeRecord>)
    ensures SumWins(trades) >= 0.0
    ensures CountWins(trades) > 0 ==> SumWins(trades) > 0.0
  {
    if trades != [] {
      WinsSumPositive(trades[..|trades| - 1]);
    }
  }

  lemma {:induction false} LossesSumNegative(trades: seq<TradeRecord>)
    ensures SumLosses(trades) <= 0.0
    ensures CountLosses(trades) > 0 ==> SumLosses(trades) < 0.0
  {
    if trades != [] {
      LossesSumNegative(trades[..|trades| - 1]);
    }
  }

  lemma {:induction false} NoClosedNoRealized(trades: seq<TradeRecord>)
    requires CountClosed(trades) == 0
    ensures RealizedPnl(trades) == 0.0
  {
    if trades != [] {
      NoClosedNoRealized(trades[..|trades| - 1]);
    }
  }

  /** The summary's counts and rates are consistent: wins and losses are
      disjoint closed trades, the win rate is a percentage, average win and
      loss have the right sign, the total P&L is the realized P&L, and on a
      balanced ledger the total return is that P&L over the starting balance. */
  lemma SummaryBounds(l: Ledger)
    ensures var s := PerformanceSummary(l);
            s.winningTrades + s.losingTrades <= s.totalTrades
            && 0.0 <= s.winRate <= 100.0
            && s.totalPnl == RealizedPnl(l.trades)
            && s.avgWin >= 0.0 && (s.winningTrades > 0 ==> s.avgWin > 0.0)
            && s.avgLoss <= 0.0 && (s.losingTrades > 0 ==> s.avgLoss < 0.0)
            && (Balanced(l) && l.startingBalance != 0.0 ==>
                  s.totalReturn == Finite(s.totalPnl / l.startingBalance * 100.0))
  {
    var total := CountClosed(l.trades);
    var s := PerformanceSummary(l);
    if total == 0 {
      NoClosedNoRealized(l.trades);
    } else {
      WinsAndLossesAreClosed(l.trades);
      WinsSumPositive(l.trades);
      LossesSumNegative(l.trades);
      var w := CountWins(l.trades);
      ShareBounds(w, total);
      assert 0.0 <= s.winRate <= 100.0;
      if w > 0 {
        QuotientSign(SumWins(l.trades), w);
      }
      if CountLosses(l.trades) > 0 {
        QuotientSign(SumLosses(l.trades), CountLosses(l.trades));
      }
      if Balanced(l) && l.startingBalance != 0.0 {
        assert l.balance - l.startingBalance == s.totalPnl;
      }
    }
  }

  /** Dividing by a positive count keeps the sign. */
  lemma QuotientSign(sum: real, n: nat)
    requires 0 < n
    ensures sum > 0.0 ==> sum / n as real > 0.0
    ensures sum < 0.0 ==> sum / n as real < 0.0
  {
    var q := sum / n as real;
    assert q * n as real == sum;
  }
}

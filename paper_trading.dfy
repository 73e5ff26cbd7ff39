/** `PaperTradingEngine`: the paper-trading ledger as an object whose tables
    are updated in place. Each method is proved to leave the object in the
    state the matching PaperLedger function describes, so every lemma of
    PaperLedger is a statement about these methods. */
module PaperTrading {
  import opened Common
  import opened PaperLedger

  class PaperTradingEngine {
    const startingBalance: real
    var balance: real
    var trades: seq<TradeRecord>
    var positions: seq<Position>
    var balanceHistory: seq<BalanceSnapshot>

    /** The abstract value of the engine. */
    function State(): Ledger
      reads this
    {
      Ledger(startingBalance, balance, trades, positions, balanceHistory)
    }

    /** The engine's invariant: the balance equation holds and every position
        row is consistently marked. Every method below keeps it. */
    ghost predicate Valid()
      reads this
    {
      Balanced(State()) && AllMarked(positions)
    }

    /** A new engine with empty tables (loading earlier CSV files is not part
        of this model); the constructor's recalculation finds no trades. */
    constructor (startingBalance: real, now: Timestamp)
      ensures State() == Fresh(startingBalance)
      ensures Valid()
    {
      this.startingBalance := startingBalance;
      balance := startingBalance;
      trades := [];
      positions := [];
      balanceHistory := [];
      new;
      RecalculateBalance(now);
    }

    /** `_recalculate_balance`. */
    method RecalculateBalance(now: Timestamp)
      modifies this
      ensures State() == Recalculate(old(State()), now)
      ensures AllMarked(old(positions)) ==> Valid()
    {
      if trades == [] {
        balance := startingBalance;
        return;
      }
      var realized := RealizedPnl(trades);
      var unrealized := UnrealizedPnl(positions);
      balance := startingBalance + realized;
      var totalPnl := realized + unrealized;
      balanceHistory := balanceHistory + [BalanceSnapshot(now, balance, totalPnl)];
    }

    /** `place_order`: returns the trade id, or `None` when a BUY costs more
        than the balance. */
    method PlaceOrder(o: OrderRequest, id: TradeId, now: Timestamp) returns (r: Option<TradeId>)
      modifies this
      ensures (State(), r) == PaperLedger.PlaceOrder(old(State()), o, id, now)
      ensures old(Valid()) ==> Valid()
    {
      ghost var before := State();
      var usdValue := o.price * o.size;
      if o.side == "BUY" && usdValue > balance {
        assert PaperLedger.PlaceOrder(before, o, id, now) == (before, None);
        return None;
      }
      trades := trades + [NewTrade(o, id, now)];
      ghost var recorded := State();
      assert recorded == before.(trades := before.trades + [NewTrade(o, id, now)]);
      ghost var debited := recorded.(balance := recorded.balance - usdValue);
      assert o.side == "BUY" ==>
        Record(before, o, id, now)
          == OpenPosition(debited, o.marketSlug, o.marketTitle, o.tokenId, o.side, o.price, o.size, usdValue, now);
      assert o.side != "BUY" ==>
        Record(before, o, id, now) == PaperLedger.ClosePosition(recorded, o.marketSlug, o.tokenId, o.price, o.size);
      if o.side == "BUY" {
        balance := balance - usdValue;
      }
      if o.side == "BUY" {
        AddPosition(o.marketSlug, o.marketTitle, o.tokenId, o.side, o.price, o.size, usdValue, now);
      } else {
        ClosePosition(o.marketSlug, o.tokenId, o.price, o.size);
      }
      RecalculateBalance(now);
      r := Some(id);
      if AllMarked(before.positions) {
        OrdersKeepPositionsMarked(before, o, id, now);
      }
    }

    /** `_add_position`. */
    method AddPosition(marketSlug: string, marketTitle: string, tokenId: string, side: string,
                       entryPrice: real, shares: real, entryValue: real, now: Timestamp)
      modifies this
      ensures State() == OpenPosition(old(State()), marketSlug, marketTitle, tokenId, side,
                                      entryPrice, shares, entryValue, now)
    {
      var position := NewPosition(marketSlug, marketTitle, tokenId, side, entryPrice, shares, entryValue, now);
      positions := positions + [position];
    }

    /** `_close_position`. */
    method ClosePosition(marketSlug: string, tokenId: string, exitPrice: real, shares: real)
      modifies this
      ensures State() == PaperLedger.ClosePosition(old(State()), marketSlug, tokenId, exitPrice, shares)
    {
      var first := FirstAtPair(positions, marketSlug, tokenId);
      if first.None? {
        return;
      }
      var position := positions[first.value];
      var exitValue := exitPrice * shares;
      var pnl := exitValue - position.entryValue;
      balance := balance + exitValue;

      // the masked update of the pair's OPEN BUY trades
      var rows := trades;
      var i := 0;
      while i < |rows|
        invariant 0 <= i <= |rows| == |trades|
        invariant forall k :: 0 <= k < i ==> rows[k] == CloseRow(trades[k], marketSlug, tokenId, pnl)
        invariant forall k :: i <= k < |rows| ==> rows[k] == trades[k]
      {
        if IsOpenBuyAt(rows[i], marketSlug, tokenId) {
          rows := rows[i := rows[i].(status := Closed, pnl := pnl)];
        }
        assert rows[i] == CloseRow(trades[i], marketSlug, tokenId, pnl);
        i := i + 1;
      }
      trades := rows;

      positions := RemovePair(positions, marketSlug, tokenId);
    }

    /** `update_position_prices`. */
    method UpdatePositionPrices(marketSlug: string, currentPrice: real)
      modifies this
      ensures State() == PaperLedger.UpdatePositionPrices(old(State()), marketSlug, currentPrice)
      ensures old(Valid()) ==> Valid()
    {
      var rows := positions;
      var i := 0;
      while i < |rows|
        invariant 0 <= i <= |rows| == |positions|
        invariant forall k :: 0 <= k < i ==> rows[k] == Remark(positions[k], marketSlug, currentPrice)
        invariant forall k :: i <= k < |rows| ==> rows[k] == positions[k]
      {
        if rows[i].marketSlug == marketSlug {
          var value := rows[i].shares * currentPrice;
          rows := rows[i := rows[i].(currentPrice := currentPrice, currentValue := value,
                                     unrealizedPnl := value - rows[i].entryValue)];
        }
        assert rows[i] == Remark(positions[i], marketSlug, currentPrice);
        i := i + 1;
      }
      positions := rows;
    }
  }
}

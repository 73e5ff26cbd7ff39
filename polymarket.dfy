/** The deterministic helpers of the trading library (src/nice_funcs_polymarket.py):
    the AI-swarm vote tally and decision, the whale-size filter over fetched
    trades, best bid/ask selection for market orders, the routing of orders to
    the paper engine, the YES/NO holding aggregation and the USD display tier.
    Every network call is replaced by the value it would have returned. */
module Polymarket {
  import opened Common
  import opened Text
  import opened PaperLedger
  import opened PaperTrading

  // ---------------------------------------------------------------------------
  // ai_validate_trade
  // ---------------------------------------------------------------------------

  /** One entry of the swarm's `responses` map: whether the model answered and
      its answer (`''` when the answer is missing). */
  datatype ModelResponse = ModelResponse(model: string, success: bool, response: string)

  datatype Vote = Yes | No | Abstain

  /** How one answer is read once upper-cased: YES only without any NO in it;
      otherwise NO anywhere makes it a no vote. */
  function Classify(response: string): (v: Vote)
    ensures v == Yes <==> Contains(ToUpper(response), "YES") && !Contains(ToUpper(response), "NO")
    ensures v == No <==> Contains(ToUpper(response), "NO")
  {
    var up := ToUpper(response);
    if Contains(up, "YES") && !Contains(up, "NO") then Yes
    else if Contains(up, "NO") then No
    else Abstain
  }

  /** `total_votes`: the responses marked successful. */
  function CountVotes(rs: seq<ModelResponse>): (r: nat)
    ensures r <= |rs|
  {
    if rs == [] then 0
    else CountVotes(rs[..|rs| - 1]) + (if rs[|rs| - 1].success then 1 else 0)
  }

  function CountYes(rs: seq<ModelResponse>): (r: nat)
    ensures r <= CountVotes(rs)
  {
    if rs == [] then 0
    else
      var last := rs[|rs| - 1];
      CountYes(rs[..|rs| - 1]) + (if last.success && Classify(last.response) == Yes then 1 else 0)
  }

  function CountNo(rs: seq<ModelResponse>): (r: nat)
    ensures r <= CountVotes(rs)
  {
    if rs == [] then 0
    else
      var last := rs[|rs| - 1];
      CountNo(rs[..|rs| - 1]) + (if last.success && Classify(last.response) == No then 1 else 0)
  }

  /** Every successful response is at most one vote, so the yes and no votes
      together never exceed the votes counted. */
  lemma {:induction false} TallyBound(rs: seq<ModelResponse>)
    ensures CountYes(rs) + CountNo(rs) <= CountVotes(rs)
    ensures CountYes(rs) <= CountVotes(rs)
  {
    if rs != [] {
      TallyBound(rs[..|rs| - 1]);
    }
  }

  /** The decision of `ai_validate_trade` on the swarm's answer; `None` is
      the exception (a failed swarm or market lookup), which means `False`.
      No counted vote rejects; otherwise the yes share must reach the
      threshold. */
  function Approves(result: Option<seq<ModelResponse>>, threshold: real): (ok: bool)
    ensures ok <==> result.Some? && CountVotes(result.value) > 0
                    && CountYes(result.value) as real / CountVotes(result.value) as real >= threshold
    ensures ok ==> result.Some? && CountVotes(result.value) > 0
    ensures ok && threshold > 0.0 ==> CountYes(result.value) > 0
    ensures threshold > 1.0 ==> !ok
    ensures (result.Some? && CountVotes(result.value) > 0 && threshold <= 1.0
             && CountYes(result.value) == CountVotes(result.value)) ==> ok
    ensures result.Some? && CountVotes(result.value) > 0 && threshold <= 0.0 ==> ok
  {
    match result
    case None => false
    case Some(rs) =>
      TallyBound(rs);
      var total := CountVotes(rs);
      if total == 0 then false
      else
        ShareBounds(CountYes(rs), total);
        (CountYes(rs) as real / total as real) >= threshold
  }

  /** `ai_validate_trade` after the swarm query: the tally loop, then the
      decision. The answer is exactly `Approves`. */
  method AiValidateTrade(result: Option<seq<ModelResponse>>, threshold: real) returns (approved: bool)
    ensures approved == Approves(result, threshold)
  {
    if result.None? {
      return false;
    }
    var rs := result.value;
    var yesVotes, noVotes, totalVotes := 0, 0, 0;
    var i := 0;
    while i < |rs|
      invariant 0 <= i <= |rs|
      invariant yesVotes == CountYes(rs[..i]) && noVotes == CountNo(rs[..i]) && totalVotes == CountVotes(rs[..i])
    {
      assert rs[..i + 1][..i] == rs[..i];
      if rs[i].success {
        var response := ToUpper(rs[i].response);
        totalVotes := totalVotes + 1;
        if Contains(response, "YES") && !Contains(response, "NO") {
          yesVotes := yesVotes + 1;
        } else if Contains(response, "NO") {
          noVotes := noVotes + 1;
        }
      }
      i := i + 1;
    }
    assert rs[..|rs|] == rs;
    if totalVotes == 0 {
      return false;
    }
    var consensus := yesVotes as real / totalVotes as real;
    approved := consensus >= threshold;
  }

  // ---------------------------------------------------------------------------
  // get_recent_trades
  // ---------------------------------------------------------------------------

  /** One fetched trade: the `price` and `size` cells as `float` sees them
      (`Absent` is a missing key, which pandas fills with NaN) and the trader. */
  datatype RawTrade = RawTrade(price: Field, size: Field, trader: string)

  /** A row of the result: the trade and its `usd_value` column. */
  datatype WhaleRow = WhaleRow(trade: RawTrade, usdValue: real)

  /** The DataFrame has a `price` column iff some row carries the key. */
  predicate HasPriceColumn(rows: seq<RawTrade>) {
    exists i :: 0 <= i < |rows| && !rows[i].price.Absent?
  }

  predicate HasSizeColumn(rows: seq<RawTrade>) {
    exists i :: 0 <= i < |rows| && !rows[i].size.Absent?
  }

  /** `astype(float)` raises on a cell it cannot convert. */
  predicate AnyMalformed(rows: seq<RawTrade>) {
    exists i :: 0 <= i < |rows| && (rows[i].price.Malformed? || rows[i].size.Malformed?)
  }

  /** `price * size` of one row when both columns exist; `None` is NaN (a
      missing cell), which no comparison keeps. */
  function RowValue(t: RawTrade): Option<real> {
    match (t.price, t.size)
    case (Num(p), Num(s)) => Some(p * s)
    case _ => None
  }

  /** `df[df['usd_value'] >= min_size_usd]` with both columns present: the
      qualifying rows in their original order. */
  function KeepWhales(rows: seq<RawTrade>, minSizeUsd: real): (r: seq<WhaleRow>)
    ensures |r| <= |rows|
    ensures forall w :: w in r <==>
              w.trade in rows && RowValue(w.trade) == Some(w.usdValue) && w.usdValue >= minSizeUsd
  {
    if rows == [] then []
    else
      var rest := KeepWhales(rows[1..], minSizeUsd);
      assert forall t :: t in rows <==> t == rows[0] || t in rows[1..];
      match RowValue(rows[0])
      case Some(v) => if v >= minSizeUsd then [WhaleRow(rows[0], v)] + rest else rest
      case None => rest
  }

  /** A single row is kept, with its value, exactly when it qualifies. */
  lemma KeepWhalesSingle(t: RawTrade, minSizeUsd: real)
    ensures KeepWhales([t], minSizeUsd)
            == if RowValue(t).Some? && RowValue(t).value >= minSizeUsd then [WhaleRow(t, RowValue(t).value)] else []
  {
    assert [t][1..] == [];
  }

  /** The filter keeps the order and the repeats of the rows: filtering a
      concatenation filters each part. With `KeepWhalesSingle` this fixes
      the result row for row. */
  lemma {:induction false} KeepWhalesAppend(a: seq<RawTrade>, b: seq<RawTrade>, minSizeUsd: real)
    ensures KeepWhales(a + b, minSizeUsd) == KeepWhales(a, minSizeUsd) + KeepWhales(b, minSizeUsd)
  {
    if a == [] {
      assert a + b == b;
    } else {
      assert (a + b)[0] == a[0] && (a + b)[1..] == a[1..] + b;
      KeepWhalesAppend(a[1..], b, minSizeUsd);
      var x, y := KeepWhales(a[1..], minSizeUsd), KeepWhales(b, minSizeUsd);
      if RowValue(a[0]).Some? && RowValue(a[0]).value >= minSizeUsd {
        var w := WhaleRow(a[0], RowValue(a[0]).value);
        assert KeepWhales(a + b, minSizeUsd) == [w] + KeepWhales(a[1..] + b, minSizeUsd);
        assert ([w] + x) + y == [w] + (x + y);
      } else {
        assert KeepWhales(a + b, minSizeUsd) == KeepWhales(a[1..] + b, minSizeUsd);
      }
    }
  }

  /** Without both columns every row gets `usd_value` 0. */
  function ZeroValued(rows: seq<RawTrade>): (r: seq<WhaleRow>)
    ensures |r| == |rows| && forall i :: 0 <= i < |rows| ==> r[i] == WhaleRow(rows[i], 0.0)
  {
    seq(|rows|, i requires 0 <= i < |rows| => WhaleRow(rows[i], 0.0))
  }

  /** `get_recent_trades` on the fetched rows: no rows or an unconvertible
      cell give the empty frame; with both columns the rows worth at least
      the minimum are kept; without them every row is worth 0 and is kept
      exactly when 0 reaches the minimum. */
  function GetRecentTrades(rows: seq<RawTrade>, minSizeUsd: real): (r: seq<WhaleRow>)
    ensures forall w :: w in r ==> w.usdValue >= minSizeUsd && w.trade in rows
    ensures HasPriceColumn(rows) && HasSizeColumn(rows) ==>
              forall w :: w in r ==> RowValue(w.trade) == Some(w.usdValue)
    ensures rows == [] ==> r == []
    ensures HasPriceColumn(rows) && HasSizeColumn(rows) && !AnyMalformed(rows) ==>
              forall t :: t in rows && RowValue(t).Some? && RowValue(t).value >= minSizeUsd ==>
                WhaleRow(t, RowValue(t).value) in r
    ensures HasPriceColumn(rows) && HasSizeColumn(rows) && !AnyMalformed(rows) ==> r == KeepWhales(rows, minSizeUsd)
    ensures HasPriceColumn(rows) && HasSizeColumn(rows) && AnyMalformed(rows) ==> r == []
    ensures !(HasPriceColumn(rows) && HasSizeColumn(rows)) ==>
              (if 0.0 >= minSizeUsd then r == ZeroValued(rows) else r == [])
  {
    if rows == [] then []
    else if HasPriceColumn(rows) && HasSizeColumn(rows) then
      if AnyMalformed(rows) then [] else KeepWhales(rows, minSizeUsd)
    else if 0.0 >= minSizeUsd then
      ZeroValued(rows)
    else
      []
  }

  // ---------------------------------------------------------------------------
  // place_market_order / place_limit_order
  // ---------------------------------------------------------------------------

  /** The two sides of a fetched order book, best price first. */
  datatype OrderBook = OrderBook(asks: seq<real>, bids: seq<real>)

  /** The live price choice of `place_market_order`: a BUY (in any case)
      takes the best ask, anything else the best bid; a failed fetch or an
      empty side gives no price and no order. */
  function MarketOrderPrice(book: Option<OrderBook>, side: string): (r: Option<real>)
    ensures r.None? <==> book.None? || (if ToUpper(side) == "BUY" then book.value.asks == [] else book.value.bids == [])
    ensures r.Some? && ToUpper(side) == "BUY" ==> r.value == book.value.asks[0]
    ensures r.Some? && ToUpper(side) != "BUY" ==> r.value == book.value.bids[0]
  {
    match book
    case None => None
    case Some(b) =>
      if ToUpper(side) == "BUY" then
        if b.asks == [] then None else Some(b.asks[0])
      else
        if b.bids == [] then None else Some(b.bids[0])
  }

  /** The live path is case-insensitive in the side: "buy" is priced like "BUY". */
  lemma LiveSideIgnoresCase(book: Option<OrderBook>)
    ensures MarketOrderPrice(book, "buy") == MarketOrderPrice(book, "BUY")
  {
    assert ToUpper("buy") == "BUY";
    assert ToUpper("BUY") == "BUY";
  }

  /** Python's `value or default` on a string. */
  function OrDefault(s: string, default: string): (r: string)
    ensures s != "" ==> r == s
    ensures s == "" ==> r == default
    ensures r != "" <==> s != "" || default != ""
  {
    if s == "" then default else s
  }

  /** The order paper mode records for `place_market_order`: a fixed price of
      0.50, the size as given (shares, not converted), type MARKET, and
      defaults for an empty slug, title or notes. */
  function PaperMarketOrderRequest(tokenId: string, size: real, side: string,
                                   marketSlug: string, marketTitle: string, notes: string): (o: OrderRequest)
    ensures o.price == 0.5 && o.size == size && o.side == side && o.tokenId == tokenId && o.orderType == "MARKET"
    ensures o.marketSlug == (if marketSlug == "" then "unknown" else marketSlug)
    ensures o.marketTitle == (if marketTitle == "" then "Unknown Market" else marketTitle)
    ensures o.notes == (if notes == "" then "Market order (simulated price)" else notes)
  {
    OrderRequest(OrDefault(marketSlug, "unknown"), OrDefault(marketTitle, "Unknown Market"), tokenId, side,
                 0.5, size, "MARKET", OrDefault(notes, "Market order (simulated price)"))
  }

  /** The order paper mode records for `place_limit_order`: the caller's price
      and size, type LIMIT, the same slug and title defaults, notes as given. */
  function PaperLimitOrderRequest(tokenId: string, price: real, size: real, side: string,
                                  marketSlug: string, marketTitle: string, notes: string): (o: OrderRequest)
    ensures o.price == price && o.size == size && o.side == side && o.tokenId == tokenId && o.orderType == "LIMIT"
    ensures o.marketSlug == (if marketSlug == "" then "unknown" else marketSlug)
    ensures o.marketTitle == (if marketTitle == "" then "Unknown Market" else marketTitle)
    ensures o.notes == notes
  {
    OrderRequest(OrDefault(marketSlug, "unknown"), OrDefault(marketTitle, "Unknown Market"), tokenId, side,
                 price, size, "LIMIT", notes)
  }

  /** Paper-mode `place_market_order`: with no engine nothing is recorded;
      otherwise the simulated order goes through the engine's `place_order`. */
  method PlaceMarketOrderPaper(engine: PaperTradingEngine?, tokenId: string, size: real, side: string,
                               marketSlug: string, marketTitle: string, notes: string,
                               id: TradeId, now: Timestamp) returns (r: Option<TradeId>)
    modifies engine
    ensures engine == null ==> r.None?
    ensures engine != null ==>
              (engine.State(), r)
                == PaperLedger.PlaceOrder(old(engine.State()),
                                          PaperMarketOrderRequest(tokenId, size, side, marketSlug, marketTitle, notes), id, now)
    ensures engine != null && old(engine.Valid()) ==> engine.Valid()
  {
    if engine == null {
      return None;
    }
    var o := PaperMarketOrderRequest(tokenId, size, side, marketSlug, marketTitle, notes);
    r := engine.PlaceOrder(o, id, now);
  }

  /** Paper-mode `place_limit_order`. */
  method PlaceLimitOrderPaper(engine: PaperTradingEngine?, tokenId: string, price: real, size: real, side: string,
                              marketSlug: string, marketTitle: string, notes: string,
                              id: TradeId, now: Timestamp) returns (r: Option<TradeId>)
    modifies engine
    ensures engine == null ==> r.None?
    ensures engine != null ==>
              (engine.State(), r)
                == PaperLedger.PlaceOrder(old(engine.State()),
                                          PaperLimitOrderRequest(tokenId, price, size, side, marketSlug, marketTitle, notes), id, now)
    ensures engine != null && old(engine.Valid()) ==> engine.Valid()
  {
    if engine == null {
      return None;
    }
    var o := PaperLimitOrderRequest(tokenId, price, size, side, marketSlug, marketTitle, notes);
    r := engine.PlaceOrder(o, id, now);
  }

  /** A paper market BUY is refused exactly when 0.50 times the size exceeds
      the balance. */
  lemma PaperMarketBuyGate(l: Ledger, tokenId: string, size: real, marketSlug: string, marketTitle: string,
                           notes: string, id: TradeId, now: Timestamp)
    ensures PlaceOrder(l, PaperMarketOrderRequest(tokenId, size, "BUY", marketSlug, marketTitle, notes), id, now).1.None?
            <==> 0.5 * size > l.balance
  {
  }

  /** Unlike the live path, paper mode passes the side through unchanged and
      the engine compares it with "BUY" exactly: a lower-case "buy" is taken
      for a SELL, is never refused for lack of balance, and opens no position. */
  lemma {:induction false} PaperLowercaseBuyIsNotABuy(l: Ledger, tokenId: string, size: real, marketSlug: string,
                                                      marketTitle: string, notes: string, id: TradeId, now: Timestamp)
    ensures var o := PaperMarketOrderRequest(tokenId, size, "buy", marketSlug, marketTitle, notes);
            var (r, res) := PlaceOrder(l, o, id, now);
            res == Some(id) && |r.positions| <= |l.positions|
  {
    var o := PaperMarketOrderRequest(tokenId, size, "buy", marketSlug, marketTitle, notes);
    assert o.side != "BUY" by { assert o.side[0] != "BUY"[0]; }
    var rec := l.(trades := l.trades + [NewTrade(o, id, now)]);
    assert Record(l, o, id, now) == PaperLedger.ClosePosition(rec, o.marketSlug, o.tokenId, o.price, o.size);
  }

  // ---------------------------------------------------------------------------
  // get_position_for_market
  // ---------------------------------------------------------------------------

  /** One row of the positions table: market id, outcome label and share count. */
  datatype PositionRow = PositionRow(market: string, outcome: string, size: real)

  /** The fetched prices of the market's two outcomes. */
  datatype MarketPrices = MarketPrices(yesPrice: real, noPrice: real)

  /** The returned dictionary: without the two value keys when the positions
      table is empty, with them otherwise. */
  datatype Holding =
    | Unpriced(yesShares: real, noShares: real, totalValue: real)
    | Priced(yesShares: real, noShares: real, yesValue: real, noValue: real, totalValue: real)

  predicate IsYesOutcome(outcome: string) {
    Contains(ToLower(outcome), "yes")
  }

  /** The `elif` branch: "no" anywhere in the label, and no "yes". */
  predicate IsNoOutcome(outcome: string) {
    !IsYesOutcome(outcome) && Contains(ToLower(outcome), "no")
  }

  /** `positions[positions['market'] == condition_id]`, order kept. */
  function RowsOf(positions: seq<PositionRow>, market: string): (r: seq<PositionRow>)
    ensures |r| <= |positions|
  {
    if positions == [] then []
    else
      var rest := RowsOf(positions[1..], market);
      if positions[0].market == market then [positions[0]] + rest else rest
  }

  /** The filter keeps exactly the rows of the market. */
  lemma {:induction false} RowsOfMembers(positions: seq<PositionRow>, market: string)
    ensures forall p :: p in RowsOf(positions, market) <==> p in positions && p.market == market
  {
    if positions != [] {
      RowsOfMembers(positions[1..], market);
      assert forall p :: p in positions <==> p == positions[0] || p in positions[1..];
    }
  }

  /** The market filter keeps the order of the rows, which the last-row-wins
      loop depends on: filtering a concatenation filters each part. */
  lemma {:induction false} RowsOfAppend(a: seq<PositionRow>, b: seq<PositionRow>, market: string)
    ensures RowsOf(a + b, market) == RowsOf(a, market) + RowsOf(b, market)
  {
    if a == [] {
      assert a + b == b;
    } else {
      assert (a + b)[0] == a[0] && (a + b)[1..] == a[1..] + b;
      RowsOfAppend(a[1..], b, market);
      var x, y := RowsOf(a[1..], market), RowsOf(b, market);
      if a[0].market != market {
        assert RowsOf(a + b, market) == RowsOf(a[1..] + b, market);
      } else {
        assert RowsOf(a + b, market) == [a[0]] + RowsOf(a[1..] + b, market);
        assert ([a[0]] + x) + y == [a[0]] + (x + y);
      }
    }
  }

  /** `v` is 0 or the size of some YES (`yes`) or NO (`!yes`) row. */
  predicate HeldBySome(rows: seq<PositionRow>, v: real, yes: bool) {
    if rows == [] then v == 0.0
    else
      var p := rows[|rows| - 1];
      (p.size == v && (if yes then IsYesOutcome(p.outcome) else IsNoOutcome(p.outcome)))
      || HeldBySome(rows[..|rows| - 1], v, yes)
  }

  /** (yes_shares, no_shares) after the loop over `rows`: each YES row
      overwrites the first, each NO row the second. */
  function Shares(rows: seq<PositionRow>): (r: (real, real))
    ensures HeldBySome(rows, r.0, true) && HeldBySome(rows, r.1, false)
  {
    if rows == [] then (0.0, 0.0)
    else
      var prev := Shares(rows[..|rows| - 1]);
      var p := rows[|rows| - 1];
      if IsYesOutcome(p.outcome) then (p.size, prev.1)
      else if IsNoOutcome(p.outcome) then (prev.0, p.size)
      else prev
  }

  lemma SharesStep(rows: seq<PositionRow>, p: PositionRow)
    ensures Shares(rows + [p])
            == if IsYesOutcome(p.outcome) then (p.size, Shares(rows).1)
               else if IsNoOutcome(p.outcome) then (Shares(rows).0, p.size)
               else Shares(rows)
  {
    assert (rows + [p])[..|rows|] == rows;
  }

  /** The holding of a non-empty table: each side's shares at its price. */
  function Valued(shares: (real, real), prices: MarketPrices): (h: Holding)
    ensures h.Priced? && h.yesShares == shares.0 && h.noShares == shares.1
    ensures h.yesValue == shares.0 * prices.yesPrice && h.noValue == shares.1 * prices.noPrice
    ensures h.totalValue == h.yesValue + h.noValue
  {
    var yesValue := shares.0 * prices.yesPrice;
    var noValue := shares.1 * prices.noPrice;
    Priced(shares.0, shares.1, yesValue, noValue, yesValue + noValue)
  }

  /** `get_position_for_market` on the fetched positions and prices. */
  method GetPositionForMarket(positions: seq<PositionRow>, market: string, prices: MarketPrices) returns (h: Holding)
    ensures positions == [] ==> h == Unpriced(0.0, 0.0, 0.0)
    ensures positions != [] ==> h == Valued(Shares(RowsOf(positions, market)), prices)
  {
    if positions == [] {
      return Unpriced(0.0, 0.0, 0.0);
    }
    var marketPositions := RowsOf(positions, market);
    var yesShares, noShares := 0.0, 0.0;
    var i := 0;
    while i < |marketPositions|
      invariant 0 <= i <= |marketPositions|
      invariant (yesShares, noShares) == Shares(marketPositions[..i])
    {
      var pos := marketPositions[i];
      assert marketPositions[..i + 1] == marketPositions[..i] + [pos];
      SharesStep(marketPositions[..i], pos);
      if IsYesOutcome(pos.outcome) {
        yesShares := pos.size;
      } else if IsNoOutcome(pos.outcome) {
        noShares := pos.size;
      }
      i := i + 1;
    }
    assert marketPositions[..|marketPositions|] == marketPositions;
    assert (yesShares, noShares) == Shares(RowsOf(positions, market));
    var yesValue := yesShares * prices.yesPrice;
    var noValue := noShares * prices.noPrice;
    h := Priced(yesShares, noShares, yesValue, noValue, yesValue + noValue);
  }

  /** YES holdings are not summed: the last YES row wins. */
  lemma {:induction false} LastYesRowWins(rows: seq<PositionRow>, k: nat)
    requires k < |rows| && IsYesOutcome(rows[k].outcome)
    requires forall j :: k < j < |rows| ==> !IsYesOutcome(rows[j].outcome)
    ensures Shares(rows).0 == rows[k].size
  {
    if k < |rows| - 1 {
      var prefix := rows[..|rows| - 1];
      assert forall j :: k < j < |prefix| ==> prefix[j] == rows[j];
      LastYesRowWins(prefix, k);
    }
  }

  /** Without a YES row the YES holding is 0. */
  lemma {:induction false} NoYesRowNoYesShares(rows: seq<PositionRow>)
    requires forall j :: 0 <= j < |rows| ==> !IsYesOutcome(rows[j].outcome)
    ensures Shares(rows).0 == 0.0
  {
    if rows != [] {
      var prefix := rows[..|rows| - 1];
      assert forall j :: 0 <= j < |prefix| ==> prefix[j] == rows[j];
      NoYesRowNoYesShares(prefix);
    }
  }

  /** Likewise the last NO row wins. */
  lemma {:induction false} LastNoRowWins(rows: seq<PositionRow>, k: nat)
    requires k < |rows| && IsNoOutcome(rows[k].outcome)
    requires forall j :: k < j < |rows| ==> !IsNoOutcome(rows[j].outcome)
    ensures Shares(rows).1 == rows[k].size
  {
    if k < |rows| - 1 {
      var prefix := rows[..|rows| - 1];
      assert forall j :: k < j < |prefix| ==> prefix[j] == rows[j];
      LastNoRowWins(prefix, k);
    }
  }

  /** The substring test is loose: an outcome labelled "Unknown" counts as a
      NO holding, and a model answering "UNKNOWN" casts a no vote. */
  lemma UnknownCountsAsNo()
    ensures IsNoOutcome("Unknown")
    ensures Classify("UNKNOWN") == No
  {
    assert ToLower("Unknown") == "unknown";
    assert ToUpper("UNKNOWN") == "UNKNOWN";
    NotContainsWithoutFirstChar("unknown", "yes");
    assert Contains("nown", "no");
    assert Contains("nknown", "no");
    assert Contains("unknown", "no");
    assert Contains("NOWN", "NO");
    assert Contains("NKNOWN", "NO");
    assert Contains("UNKNOWN", "NO");
  }

  // ---------------------------------------------------------------------------
  // format_usd
  // ---------------------------------------------------------------------------

  datatype UsdTier = Millions | Thousands | Dollars

  /** The tier `format_usd` picks and the number it prints (before rounding
      to two decimals): millions from 1,000,000, thousands from 1,000. */
  function FormatUsd(amount: real): (r: (real, UsdTier))
    ensures r.1 == Millions <==> amount >= 1000000.0
    ensures r.1 == Thousands <==> 1000.0 <= amount < 1000000.0
    ensures r.1 == Millions ==> r.0 * 1000000.0 == amount && r.0 >= 1.0
    ensures r.1 == Thousands ==> r.0 * 1000.0 == amount && 1.0 <= r.0 < 1000.0
    ensures r.1 == Dollars ==> r.0 == amount && amount < 1000.0
  {
    if amount >= 1000000.0 then (amount / 1000000.0, Millions)
    else if amount >= 1000.0 then (amount / 1000.0, Thousands)
    else (amount, Dollars)
  }
}

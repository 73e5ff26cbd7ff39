/** The whale tracker (src/agents/whale_tracker_polymarket.py): classifying the
    live trade feed, recording whale trades, keeping the whale-wallet registry
    and deciding whether to copy a trade. As in PaperLedger, the agent's state
    is first described as a value with one function per method; the class
    `WhaleTrackerAgent` is then proved to update its fields exactly so. */
module WhaleTracker {
  import opened Common
  import Polymarket

  /** The module-level settings. */
  datatype Config = Config(
    minWhaleTradeSize: real,
    minWhaleWinRate: real,
    minAiConsensus: real,
    autoCopyEnabled: bool,
    maxPositionSize: real,
    copyPercentage: real)

  /** The settings as shipped: $10,000 trades, 60% win rate, 70% AI
      agreement, auto-copy off, at most $100 per copy, 10% of the whale. */
  const DefaultConfig := Config(10000.0, 60.0, 0.70, false, 100.0, 10.0)

  /** A trader-statistics dictionary (empty when the lookup fails). */
  type Stats = map<string, real>

  /** `stats.get(key, 0)`. */
  function StatOr0(stats: Stats, key: string): real {
    if key in stats then stats[key] else 0.0
  }

  /** The `payload` object of a feed message; string fields are `None` when
      the key is missing. */
  datatype TradePayload = TradePayload(
    price: Field,
    size: Field,
    eventSlug: Option<string>,
    title: Option<string>,
    trader: Option<string>,
    side: Option<string>)

  /** A payload without any key: what `data.get('payload', {})` yields when
      the message has none. */
  const EmptyPayload := TradePayload(Absent, Absent, None, None, None, None)

  /** A feed message after `json.loads`: not JSON, JSON but not an object, or
      an object with its `type`, `topic` and `payload` (`None` when the
      payload is present but is not an object). */
  datatype FeedMessage =
    | Undecodable
    | NonObject
    | Object(msgType: Option<string>, topic: Option<string>, payload: Option<TradePayload>)

  /** A row of the whale-trades table. */
  datatype WhaleTrade = WhaleTrade(
    timestamp: Timestamp,
    marketSlug: string,
    marketTitle: string,
    walletAddress: string,
    side: string,
    price: real,
    size: real,
    usdValue: real,
    traderWinRate: real,
    aiValidated: bool,
    copied: bool)

  /** A row of the whale-wallet registry. */
  datatype WhaleWallet = WhaleWallet(
    walletAddress: string,
    winRate: real,
    totalVolume: real,
    profitLoss: real,
    firstSeen: Timestamp,
    lastSeen: Timestamp,
    tradeCount: nat)

  /** A row of the copy-signals table. */
  datatype CopySignal = CopySignal(
    timestamp: Timestamp,
    marketSlug: string,
    marketTitle: string,
    whaleWallet: string,
    whaleSide: string,
    whaleSize: real,
    ourSide: string,
    ourSize: real,
    aiConsensus: real,
    executed: bool,
    outcome: string)

  /** The arguments of the `place_market_order` call a copy makes. */
  datatype MarketOrderCall = MarketOrderCall(tokenId: string, size: real, side: string,
                                             marketSlug: string, marketTitle: string)

  /** What the outside world answers during one message: trader statistics
      for a wallet, the swarm's responses for a market and side (`None` when
      the query fails), our balance, and the id `place_market_order` returns. */
  datatype Services = Services(
    traderStats: string -> Stats,
    swarm: (string, string) -> Option<seq<Polymarket.ModelResponse>>,
    balance: real,
    placeMarketOrder: MarketOrderCall -> Option<string>)

  /** The agent's counters and tables. */
  datatype AgentState = AgentState(
    wsConnected: bool,
    totalTradesTracked: nat,
    whaleTradesDetected: nat,
    aiValidatedTrades: nat,
    tradesCopied: nat,
    whaleTrades: seq<WhaleTrade>,
    whaleWallets: seq<WhaleWallet>,
    copySignals: seq<CopySignal>)

  const InitialState := AgentState(false, 0, 0, 0, 0, [], [], [])

  // ---------------------------------------------------------------------------
  // Classification of feed messages
  // ---------------------------------------------------------------------------

  /** An object with topic `activity` and type `orders_matched`. */
  predicate IsMatchedTrade(msg: FeedMessage) {
    msg.Object? && msg.topic == Some("activity") && msg.msgType == Some("orders_matched")
  }

  /** The price and size of a matched trade, when the payload is an object
      whose two fields `float` accepts (missing ones count as 0). */
  function MatchedFields(msg: FeedMessage): (r: Option<(real, real)>)
    ensures r.Some? ==> IsMatchedTrade(msg)
    ensures IsMatchedTrade(msg) && msg.payload.Some?
            && ParseField(msg.payload.value.price).Some? && ParseField(msg.payload.value.size).Some? ==>
              r == Some((ParseField(msg.payload.value.price).value, ParseField(msg.payload.value.size).value))
  {
    if IsMatchedTrade(msg) && msg.payload.Some? then
      match (ParseField(msg.payload.value.price), ParseField(msg.payload.value.size))
      case (Some(p), Some(s)) => Some((p, s))
      case _ => None
    else None
  }

  /** The notional value of a trade, `price * size`. */
  function Notional(price: real, size: real): real {
    price * size
  }

  /** The whale test: the notional value reaches the minimum. */
  predicate IsWhaleTrade(cfg: Config, price: real, size: real): (b: bool)
    ensures price == 0.0 || size == 0.0 ==> (b <==> cfg.minWhaleTradeSize <= 0.0)
  {
    Notional(price, size) >= cfg.minWhaleTradeSize
  }

  lemma WhaleThresholdExamples()
    ensures IsWhaleTrade(DefaultConfig, 0.02, 600000.0)
    ensures !IsWhaleTrade(DefaultConfig, 0.02, 100000.0)
  {
  }

  // ---------------------------------------------------------------------------
  // _update_whale_wallet
  // ---------------------------------------------------------------------------

  predicate HasWallet(wallets: seq<WhaleWallet>, wallet: string) {
    exists i :: 0 <= i < |wallets| && wallets[i].walletAddress == wallet
  }

  predicate UniqueAddresses(wallets: seq<WhaleWallet>) {
    forall i, j :: 0 <= i < j < |wallets| ==> wallets[i].walletAddress != wallets[j].walletAddress
  }

  /** The sum of `trade_count` over the registry. */
  function TotalSightings(wallets: seq<WhaleWallet>): nat {
    if wallets == [] then 0
    else TotalSightings(wallets[..|wallets| - 1]) + wallets[|wallets| - 1].tradeCount
  }

  /** The masked update of a known wallet's row: seen now, one more trade,
      and the statistics overwritten only when the lookup returned any. */
  function Touch(w: WhaleWallet, stats: Stats, now: Timestamp): WhaleWallet {
    var seen := w.(lastSeen := now, tradeCount := w.tradeCount + 1);
    if stats != map[] then
      seen.(winRate := StatOr0(stats, "win_rate"), totalVolume := StatOr0(stats, "total_volume"),
            profitLoss := StatOr0(stats, "profit_loss"))
    else seen
  }

  function TouchRow(w: WhaleWallet, wallet: string, stats: Stats, now: Timestamp): WhaleWallet {
    if w.walletAddress == wallet then Touch(w, stats, now) else w
  }

  function TouchAll(wallets: seq<WhaleWallet>, wallet: string, stats: Stats, now: Timestamp): (r: seq<WhaleWallet>)
    ensures |r| == |wallets| && forall i :: 0 <= i < |wallets| ==> r[i] == TouchRow(wallets[i], wallet, stats, now)
  {
    seq(|wallets|, i requires 0 <= i < |wallets| => TouchRow(wallets[i], wallet, stats, now))
  }

  /** The row a first sighting appends. */
  function NewWallet(wallet: string, stats: Stats, now: Timestamp): WhaleWallet {
    WhaleWallet(wallet, StatOr0(stats, "win_rate"), StatOr0(stats, "total_volume"),
                StatOr0(stats, "profit_loss"), now, now, 1)
  }

  /** `_update_whale_wallet`. */
  function UpsertWallet(wallets: seq<WhaleWallet>, wallet: string, stats: Stats, now: Timestamp): (r: seq<WhaleWallet>)
    ensures HasWallet(r, wallet)
    ensures |r| == |wallets| + (if HasWallet(wallets, wallet) then 0 else 1)
    ensures forall i :: 0 <= i < |wallets| ==> r[i].walletAddress == wallets[i].walletAddress
    ensures forall i :: 0 <= i < |wallets| && wallets[i].walletAddress != wallet ==> r[i] == wallets[i]
  {
    if HasWallet(wallets, wallet) then TouchAll(wallets, wallet, stats, now)
    else
      var r := wallets + [NewWallet(wallet, stats, now)];
      assert r[|wallets|].walletAddress == wallet;
      r
  }

  /** A wallet not yet registered gets one new row: count 1, first and last
      seen now, the statistics (0 for missing keys); no other row changes. */
  lemma UpsertUnseen(wallets: seq<WhaleWallet>, wallet: string, stats: Stats, now: Timestamp)
    requires !HasWallet(wallets, wallet)
    ensures var r := UpsertWallet(wallets, wallet, stats, now);
            |r| == |wallets| + 1 && r[..|wallets|] == wallets
            && r[|wallets|].walletAddress == wallet && r[|wallets|].tradeCount == 1
            && r[|wallets|].firstSeen == r[|wallets|].lastSeen == now
            && r[|wallets|].winRate == StatOr0(stats, "win_rate")
            && r[|wallets|].totalVolume == StatOr0(stats, "total_volume")
            && r[|wallets|].profitLoss == StatOr0(stats, "profit_loss")
  {
    var r := UpsertWallet(wallets, wallet, stats, now);
    assert r[..|wallets|] == wallets;
  }

  /** A registered wallet keeps the number of rows; each of its rows counts one
      more trade and is seen now; its statistics change iff the lookup
      returned something; other wallets' rows do not change. */
  lemma UpsertSeen(wallets: seq<WhaleWallet>, wallet: string, stats: Stats, now: Timestamp, k: nat)
    requires k < |wallets| && wallets[k].walletAddress == wallet
    ensures var r := UpsertWallet(wallets, wallet, stats, now);
            |r| == |wallets|
            && r[k].tradeCount == wallets[k].tradeCount + 1 && r[k].lastSeen == now
            && r[k].firstSeen == wallets[k].firstSeen && r[k].walletAddress == wallet
            && (stats == map[] ==> r[k].winRate == wallets[k].winRate && r[k].totalVolume == wallets[k].totalVolume
                                   && r[k].profitLoss == wallets[k].profitLoss)
            && (stats != map[] ==> r[k].winRate == StatOr0(stats, "win_rate")
                                   && r[k].totalVolume == StatOr0(stats, "total_volume")
                                   && r[k].profitLoss == StatOr0(stats, "profit_loss"))
            && (forall i :: 0 <= i < |wallets| && wallets[i].walletAddress != wallet ==> r[i] == wallets[i])
  {
    assert HasWallet(wallets, wallet);
  }

  /** Rows of `wallet` in the registry. */
  function CountAddress(wallets: seq<WhaleWallet>, wallet: string): nat {
    if wallets == [] then 0
    else CountAddress(wallets[..|wallets| - 1], wallet) + (if wallets[|wallets| - 1].walletAddress == wallet then 1 else 0)
  }

  lemma {:induction false} TouchAllSightings(wallets: seq<WhaleWallet>, wallet: string, stats: Stats, now: Timestamp)
    ensures TotalSightings(TouchAll(wallets, wallet, stats, now)) == TotalSightings(wallets) + CountAddress(wallets, wallet)
  {
    if wallets != [] {
      var n := |wallets| - 1;
      assert TouchAll(wallets, wallet, stats, now)[..n] == TouchAll(wallets[..n], wallet, stats, now);
      TouchAllSightings(wallets[..n], wallet, stats, now);
    }
  }

  lemma {:induction false} CountAddressUnique(wallets: seq<WhaleWallet>, wallet: string, k: nat)
    requires UniqueAddresses(wallets) && k < |wallets| && wallets[k].walletAddress == wallet
    ensures CountAddress(wallets, wallet) == 1
  {
    var n := |wallets| - 1;
    if k == n {
      CountAddressAbsent(wallets[..n], wallet);
    } else {
      CountAddressUnique(wallets[..n], wallet, k);
    }
  }

  lemma {:induction false} CountAddressAbsent(wallets: seq<WhaleWallet>, wallet: string)
    requires forall i :: 0 <= i < |wallets| ==> wallets[i].walletAddress != wallet
    ensures CountAddress(wallets, wallet) == 0
  {
    if wallets != [] {
      CountAddressAbsent(wallets[..|wallets| - 1], wallet);
    }
  }

  /** On a registry without duplicate addresses, an upsert keeps addresses
      unique and adds exactly one to the total trade count. */
  lemma {:induction false} UpsertKeepsRegistry(wallets: seq<WhaleWallet>, wallet: string, stats: Stats, now: Timestamp)
    requires UniqueAddresses(wallets)
    ensures var r := UpsertWallet(wallets, wallet, stats, now);
            UniqueAddresses(r) && TotalSightings(r) == TotalSightings(wallets) + 1
  {
    var r := UpsertWallet(wallets, wallet, stats, now);
    if HasWallet(wallets, wallet) {
      var k :| 0 <= k < |wallets| && wallets[k].walletAddress == wallet;
      TouchAllSightings(wallets, wallet, stats, now);
      CountAddressUnique(wallets, wallet, k);
      assert forall i :: 0 <= i < |r| ==> r[i].walletAddress == wallets[i].walletAddress;
    } else {
      assert r[..|wallets|] == wallets;
    }
  }

  // ---------------------------------------------------------------------------
  // _evaluate_copy_trade
  // ---------------------------------------------------------------------------

  /** `min(whale_size_usd * (COPY_PERCENTAGE / 100), MAX_POSITION_SIZE)`. */
  function CopySize(cfg: Config, whaleSizeUsd: real): (r: real)
    ensures r <= cfg.maxPositionSize && r <= whaleSizeUsd * (cfg.copyPercentage / 100.0)
    ensures r == cfg.maxPositionSize || r == whaleSizeUsd * (cfg.copyPercentage / 100.0)
  {
    var share := whaleSizeUsd * (cfg.copyPercentage / 100.0);
    if cfg.maxPositionSize < share then cfg.maxPositionSize else share
  }

  lemma CopySizeExample()
    ensures CopySize(DefaultConfig, 50000.0) == 100.0
    ensures CopySize(DefaultConfig, 500.0) == 50.0
  {
  }

  /** The placeholder token id of the copied side. */
  function TokenFor(marketSlug: string, whaleSide: string): (r: string)
    ensures |r| > |marketSlug| && r[..|marketSlug|] == marketSlug
    ensures r[|marketSlug|..] == (if whaleSide == "YES" then "_YES_TOKEN" else "_NO_TOKEN")
  {
    if whaleSide == "YES" then marketSlug + "_YES_TOKEN" else marketSlug + "_NO_TOKEN"
  }

  /** The copy-signal row of an executed copy decision. */
  function NewSignal(cfg: Config, marketSlug: string, marketTitle: string, whaleSide: string,
                     whaleSizeUsd: real, whaleWallet: string, copySize: real,
                     executed: bool, now: Timestamp): CopySignal {
    CopySignal(now, marketSlug, marketTitle, whaleWallet, whaleSide, whaleSizeUsd, whaleSide,
               copySize, cfg.minAiConsensus, executed, "PENDING")
  }

  /** The order a copy places: always a BUY of the copy size in dollars, on
      the placeholder token. */
  function CopyOrder(cfg: Config, marketSlug: string, marketTitle: string, whaleSide: string,
                     whaleSizeUsd: real): MarketOrderCall {
    MarketOrderCall(TokenFor(marketSlug, whaleSide), CopySize(cfg, whaleSizeUsd), "BUY", marketSlug, marketTitle)
  }

  /** `_evaluate_copy_trade`: the AI gate, then the count of approvals, the
      sizing and the balance gate, then the order and exactly one signal. */
  function EvaluateCopy(s: AgentState, cfg: Config, svc: Services, marketSlug: string, marketTitle: string,
                        whaleSide: string, whaleSizeUsd: real, whaleWallet: string, now: Timestamp): (r: AgentState)
    ensures r.whaleTrades == s.whaleTrades && r.whaleWallets == s.whaleWallets
    ensures r.whaleTradesDetected == s.whaleTradesDetected && r.totalTradesTracked == s.totalTradesTracked
    ensures r.wsConnected == s.wsConnected
    ensures r.aiValidatedTrades
              == s.aiValidatedTrades + (if Polymarket.Approves(svc.swarm(marketSlug, whaleSide), cfg.minAiConsensus) then 1 else 0)
    ensures |r.copySignals|
              == |s.copySignals| + (if Polymarket.Approves(svc.swarm(marketSlug, whaleSide), cfg.minAiConsensus)
                                       && svc.balance >= CopySize(cfg, whaleSizeUsd) && cfg.autoCopyEnabled
                                    then 1 else 0)
    ensures r.copySignals[..|s.copySignals|] == s.copySignals && r.tradesCopied <= s.tradesCopied + 1
  {
    if !Polymarket.Approves(svc.swarm(marketSlug, whaleSide), cfg.minAiConsensus) then s
    else
      var approved := s.(aiValidatedTrades := s.aiValidatedTrades + 1);
      var copySize := CopySize(cfg, whaleSizeUsd);
      if svc.balance < copySize || !cfg.autoCopyEnabled then approved
      else
        var orderId := svc.placeMarketOrder(CopyOrder(cfg, marketSlug, marketTitle, whaleSide, whaleSizeUsd));
        var executed := orderId.Some?;
        var signal := NewSignal(cfg, marketSlug, marketTitle, whaleSide, whaleSizeUsd, whaleWallet,
                                copySize, executed, now);
        approved.(copySignals := approved.copySignals + [signal],
                  tradesCopied := if executed then approved.tradesCopied + 1 else approved.tradesCopied)
  }

  /** Signals whose order went through. */
  function CountExecuted(signals: seq<CopySignal>): nat {
    if signals == [] then 0
    else CountExecuted(signals[..|signals| - 1]) + (if signals[|signals| - 1].executed then 1 else 0)
  }

  /** An AI rejection returns before any counter or table changes. */
  lemma AiRejectionChangesNothing(s: AgentState, cfg: Config, svc: Services, marketSlug: string, marketTitle: string,
                                  whaleSide: string, whaleSizeUsd: real, whaleWallet: string, now: Timestamp)
    requires !Polymarket.Approves(svc.swarm(marketSlug, whaleSide), cfg.minAiConsensus)
    ensures EvaluateCopy(s, cfg, svc, marketSlug, marketTitle, whaleSide, whaleSizeUsd, whaleWallet, now) == s
  {
  }

  /** After approval, a balance below the copy size only counts the approval. */
  lemma InsufficientBalanceOnlyCounts(s: AgentState, cfg: Config, svc: Services, marketSlug: string, marketTitle: string,
                                      whaleSide: string, whaleSizeUsd: real, whaleWallet: string, now: Timestamp)
    requires Polymarket.Approves(svc.swarm(marketSlug, whaleSide), cfg.minAiConsensus)
    requires svc.balance < CopySize(cfg, whaleSizeUsd)
    ensures EvaluateCopy(s, cfg, svc, marketSlug, marketTitle, whaleSide, whaleSizeUsd, whaleWallet, now)
            == s.(aiValidatedTrades := s.aiValidatedTrades + 1)
  {
  }

  /** The execute path: one BUY order of at most the maximum position size,
      exactly one signal appended (our side is the whale's side, the consensus
      recorded is the configured threshold, outcome PENDING), and one more
      copied trade iff the order returned an id. */
  lemma {:induction false} CopyExecutePath(s: AgentState, cfg: Config, svc: Services, marketSlug: string, marketTitle: string,
                                           whaleSide: string, whaleSizeUsd: real, whaleWallet: string, now: Timestamp)
    requires Polymarket.Approves(svc.swarm(marketSlug, whaleSide), cfg.minAiConsensus)
    requires svc.balance >= CopySize(cfg, whaleSizeUsd) && cfg.autoCopyEnabled
    ensures var r := EvaluateCopy(s, cfg, svc, marketSlug, marketTitle, whaleSide, whaleSizeUsd, whaleWallet, now);
            var order := CopyOrder(cfg, marketSlug, marketTitle, whaleSide, whaleSizeUsd);
            var executed := svc.placeMarketOrder(order).Some?;
            order.side == "BUY" && order.size <= cfg.maxPositionSize
            && r.aiValidatedTrades == s.aiValidatedTrades + 1
            && |r.copySignals| == |s.copySignals| + 1 && r.copySignals[..|s.copySignals|] == s.copySignals
            && (var sig := r.copySignals[|s.copySignals|];
                sig.ourSide == sig.whaleSide == whaleSide && sig.ourSize == order.size
                && sig.aiConsensus == cfg.minAiConsensus && sig.outcome == "PENDING" && sig.executed == executed)
            && r.tradesCopied == s.tradesCopied + (if executed then 1 else 0)
            && CountExecuted(r.copySignals) == CountExecuted(s.copySignals) + (if executed then 1 else 0)
  {
    var r := EvaluateCopy(s, cfg, svc, marketSlug, marketTitle, whaleSide, whaleSizeUsd, whaleWallet, now);
    assert r.copySignals[..|s.copySignals|] == s.copySignals;
  }

  // ---------------------------------------------------------------------------
  // process_whale_trade and on_ws_message
  // ---------------------------------------------------------------------------

  /** `process_whale_trade`: count the whale, re-read the payload (a value
      `float` refuses raises at this point, after the count), append one
      whale-trade row, upsert the wallet, and evaluate a copy only for a
      quality whale with auto-copy on. */
  function ProcessWhale(s: AgentState, cfg: Config, svc: Services, p: TradePayload,
                        usdValue: real, now: Timestamp): (r: AgentState)
    ensures r.whaleTradesDetected == s.whaleTradesDetected + 1
    ensures r.totalTradesTracked == s.totalTradesTracked && r.wsConnected == s.wsConnected
    ensures ParseField(p.price).None? || ParseField(p.size).None? ==>
              r == s.(whaleTradesDetected := s.whaleTradesDetected + 1)
  {
    var counted := s.(whaleTradesDetected := s.whaleTradesDetected + 1);
    match (ParseField(p.price), ParseField(p.size))
    case (Some(price), Some(size)) =>
      var marketSlug := p.eventSlug.GetOr("");
      var marketTitle := p.title.GetOr("Unknown");
      var wallet := p.trader.GetOr("Unknown");
      var side := p.side.GetOr("");
      var stats := svc.traderStats(wallet);
      var winRate := StatOr0(stats, "win_rate");
      var row := WhaleTrade(now, marketSlug, marketTitle, wallet, side, price, size, usdValue, winRate, false, false);
      var recorded := counted.(whaleTrades := counted.whaleTrades + [row],
                               whaleWallets := UpsertWallet(counted.whaleWallets, wallet, stats, now));
      if winRate >= cfg.minWhaleWinRate && cfg.autoCopyEnabled then
        EvaluateCopy(recorded, cfg, svc, marketSlug, marketTitle, side, usdValue, wallet, now)
      else recorded
    case _ => counted
  }

  /** The part of `on_ws_message` after a matched trade has been counted:
      read price and size (a non-object payload or a value `float` refuses
      raises, and the handler swallows it) and hand a whale on. */
  function OnMatched(s: AgentState, cfg: Config, svc: Services, payload: Option<TradePayload>, now: Timestamp): (r: AgentState)
    ensures r.totalTradesTracked == s.totalTradesTracked && r.wsConnected == s.wsConnected
    ensures r == s || r.whaleTradesDetected == s.whaleTradesDetected + 1
    ensures payload.None? ==> r == s
  {
    match payload
    case None => s
    case Some(p) =>
      match ParseField(p.price)
      case None => s
      case Some(price) =>
        match ParseField(p.size)
        case None => s
        case Some(size) =>
          if IsWhaleTrade(cfg, price, size) then ProcessWhale(s, cfg, svc, p, Notional(price, size), now) else s
  }

  /** `on_ws_message` after decoding. */
  function OnMessage(s: AgentState, cfg: Config, svc: Services, msg: FeedMessage, now: Timestamp): (r: AgentState)
    ensures r.totalTradesTracked == s.totalTradesTracked + (if IsMatchedTrade(msg) then 1 else 0)
    ensures msg.Undecodable? || msg.NonObject? ==> r == s
  {
    match msg
    case Undecodable => s
    case NonObject => s
    case Object(msgType, topic, payload) =>
      if msgType == Some("subscribed") then s.(wsConnected := true)
      else if msgType == Some("pong") then s
      else if topic == Some("activity") && msgType == Some("orders_matched") then
        OnMatched(s.(totalTradesTracked := s.totalTradesTracked + 1, wsConnected := true), cfg, svc, payload, now)
      else s
  }

  /** The bookkeeping the agent keeps consistent: every detected whale has a
      row and a sighting in the registry, the counters are ordered, and the
      copied trades are the executed signals. */
  predicate Valid(s: AgentState) {
    s.whaleTradesDetected == |s.whaleTrades| == TotalSightings(s.whaleWallets)
    && UniqueAddresses(s.whaleWallets)
    && s.aiValidatedTrades <= s.whaleTradesDetected <= s.totalTradesTracked
    && |s.copySignals| <= s.aiValidatedTrades
    && s.tradesCopied == CountExecuted(s.copySignals)
  }

  /** At most one copied trade per signal. */
  lemma {:induction false} CountExecutedBound(signals: seq<CopySignal>)
    ensures CountExecuted(signals) <= |signals|
  {
    if signals != [] {
      CountExecutedBound(signals[..|signals| - 1]);
    }
  }

  /** In a consistent state trades_copied never exceeds ai_validated_trades:
      every copied trade is an executed signal, and every signal follows an
      approval. */
  lemma ValidCopiedBound(s: AgentState)
    requires Valid(s)
    ensures s.tradesCopied <= |s.copySignals| <= s.aiValidatedTrades
  {
    CountExecutedBound(s.copySignals);
  }

  lemma InitialStateValid()
    ensures Valid(InitialState)
  {
  }

  /** What the matched-trade path changes: nothing but the whale count,
      which moves by one exactly for a whale, and what `process_whale_trade`
      adds. */
  lemma {:induction false} OnMatchedFrame(s: AgentState, cfg: Config, svc: Services, msg: FeedMessage, now: Timestamp)
    requires msg.Object?
    ensures var r := OnMatched(s, cfg, svc, msg.payload, now);
            var m := MatchedFields(msg);
            r.totalTradesTracked == s.totalTradesTracked && r.wsConnected == s.wsConnected
            && s.aiValidatedTrades <= r.aiValidatedTrades <= s.aiValidatedTrades + 1
            && (IsMatchedTrade(msg) ==>
                  r.whaleTradesDetected
                    == s.whaleTradesDetected + (if m.Some? && IsWhaleTrade(cfg, m.value.0, m.value.1) then 1 else 0))
  {
    match msg.payload
    case None =>
    case Some(p) =>
      match ParseField(p.price)
      case None =>
      case Some(price) =>
        match ParseField(p.size)
        case None =>
        case Some(size) =>
          if IsWhaleTrade(cfg, price, size) {
            ProcessWhaleFrame(s, cfg, svc, p, Notional(price, size), now);
          }
  }

  /** Only a matched trade is counted as tracked; a subscription confirmation
      only marks the socket connected; a pong, an undecodable or non-object
      message and any other object change nothing. */
  lemma {:induction false} MessageTracking(s: AgentState, cfg: Config, svc: Services, msg: FeedMessage, now: Timestamp)
    ensures var r := OnMessage(s, cfg, svc, msg, now);
            r.totalTradesTracked == s.totalTradesTracked + (if IsMatchedTrade(msg) then 1 else 0)
            && (IsMatchedTrade(msg) ==> r.wsConnected)
            && (msg.Object? && msg.msgType == Some("subscribed") ==> r == s.(wsConnected := true))
            && (!IsMatchedTrade(msg) && !(msg.Object? && msg.msgType == Some("subscribed")) ==> r == s)
  {
    if IsMatchedTrade(msg) {
      var tracked := s.(totalTradesTracked := s.totalTradesTracked + 1, wsConnected := true);
      OnMatchedFrame(tracked, cfg, svc, msg, now);
    }
  }

  /** What `process_whale_trade` leaves alone, and what it adds. */
  lemma {:induction false} ProcessWhaleFrame(s: AgentState, cfg: Config, svc: Services, p: TradePayload,
                                             usdValue: real, now: Timestamp)
    ensures var r := ProcessWhale(s, cfg, svc, p, usdValue, now);
            r.totalTradesTracked == s.totalTradesTracked && r.wsConnected == s.wsConnected
            && r.whaleTradesDetected == s.whaleTradesDetected + 1
            && s.aiValidatedTrades <= r.aiValidatedTrades <= s.aiValidatedTrades + 1
  {
  }

  /** A matched trade reaches `process_whale_trade` exactly when its price and
      size parse and their product reaches the minimum. */
  lemma {:induction false} WhaleIffQualifies(s: AgentState, cfg: Config, svc: Services, msg: FeedMessage, now: Timestamp)
    ensures var r := OnMessage(s, cfg, svc, msg, now);
            var m := MatchedFields(msg);
            r.whaleTradesDetected
              == s.whaleTradesDetected + (if m.Some? && IsWhaleTrade(cfg, m.value.0, m.value.1) then 1 else 0)
  {
    MessageTracking(s, cfg, svc, msg, now);
    if IsMatchedTrade(msg) {
      var tracked := s.(totalTradesTracked := s.totalTradesTracked + 1, wsConnected := true);
      OnMatchedFrame(tracked, cfg, svc, msg, now);
    }
  }

  /** Missing price or size default to 0 and never make a whale while the
      minimum is positive. */
  lemma MissingFieldsNeverQualify(s: AgentState, cfg: Config, svc: Services, msg: FeedMessage, now: Timestamp)
    requires cfg.minWhaleTradeSize > 0.0 && msg.Object? && msg.payload.Some?
    requires msg.payload.value.price.Absent? || msg.payload.value.size.Absent?
    ensures OnMessage(s, cfg, svc, msg, now).whaleTradesDetected == s.whaleTradesDetected
  {
    WhaleIffQualifies(s, cfg, svc, msg, now);
  }

  /** `process_whale_trade` on a payload that parses: one new whale-trade row,
      not AI-validated and not copied, carrying the trader's win rate (0 with
      no statistics); a copy is evaluated only for a quality whale with
      auto-copy on, and otherwise no counter past the whale count moves. */
  lemma {:induction false} ProcessWhaleRecords(s: AgentState, cfg: Config, svc: Services, p: TradePayload,
                                               usdValue: real, now: Timestamp)
    requires ParseField(p.price).Some? && ParseField(p.size).Some?
    ensures var r := ProcessWhale(s, cfg, svc, p, usdValue, now);
            var wallet := p.trader.GetOr("Unknown");
            var winRate := StatOr0(svc.traderStats(wallet), "win_rate");
            |r.whaleTrades| == |s.whaleTrades| + 1 && r.whaleTrades[..|s.whaleTrades|] == s.whaleTrades
            && (var row := r.whaleTrades[|s.whaleTrades|];
                !row.aiValidated && !row.copied && row.walletAddress == wallet && row.usdValue == usdValue
                && row.traderWinRate == winRate)
            && r.whaleWallets == UpsertWallet(s.whaleWallets, wallet, svc.traderStats(wallet), now)
            && (!(winRate >= cfg.minWhaleWinRate && cfg.autoCopyEnabled) ==>
                  r.aiValidatedTrades == s.aiValidatedTrades && r.copySignals == s.copySignals
                  && r.tradesCopied == s.tradesCopied)
  {
    var r := ProcessWhale(s, cfg, svc, p, usdValue, now);
    assert r.whaleTrades[..|s.whaleTrades|] == s.whaleTrades;
  }

  /** The copy bookkeeping survives one copy evaluation. */
  lemma {:induction false} EvaluateCopyKeepsCounts(s: AgentState, cfg: Config, svc: Services, marketSlug: string,
                                                   marketTitle: string, whaleSide: string, whaleSizeUsd: real,
                                                   whaleWallet: string, now: Timestamp)
    requires |s.copySignals| <= s.aiValidatedTrades && s.tradesCopied == CountExecuted(s.copySignals)
    ensures var r := EvaluateCopy(s, cfg, svc, marketSlug, marketTitle, whaleSide, whaleSizeUsd, whaleWallet, now);
            |r.copySignals| <= r.aiValidatedTrades <= s.aiValidatedTrades + 1
            && r.tradesCopied == CountExecuted(r.copySignals)
            && r.whaleTrades == s.whaleTrades && r.whaleWallets == s.whaleWallets
            && r.whaleTradesDetected == s.whaleTradesDetected && r.totalTradesTracked == s.totalTradesTracked
  {
    var approved := Polymarket.Approves(svc.swarm(marketSlug, whaleSide), cfg.minAiConsensus);
    if approved && svc.balance >= CopySize(cfg, whaleSizeUsd) && cfg.autoCopyEnabled {
      CopyExecutePath(s, cfg, svc, marketSlug, marketTitle, whaleSide, whaleSizeUsd, whaleWallet, now);
    }
  }

  /** Every message keeps the agent's bookkeeping consistent; in particular
      whale_trades_detected never exceeds total_trades_tracked and
      trades_copied never exceeds ai_validated_trades. */
  lemma {:induction false} MessagePreservesValid(s: AgentState, cfg: Config, svc: Services, msg: FeedMessage, now: Timestamp)
    requires Valid(s)
    ensures Valid(OnMessage(s, cfg, svc, msg, now))
    ensures OnMessage(s, cfg, svc, msg, now).tradesCopied <= OnMessage(s, cfg, svc, msg, now).aiValidatedTrades
  {
    if IsMatchedTrade(msg) {
      var tracked := s.(totalTradesTracked := s.totalTradesTracked + 1, wsConnected := true);
      assert OnMessage(s, cfg, svc, msg, now) == OnMatched(tracked, cfg, svc, msg.payload, now);
      OnMatchedKeepsValid(tracked, cfg, svc, msg.payload, now);
    } else {
      MessageTracking(s, cfg, svc, msg, now);
    }
    ValidCopiedBound(OnMessage(s, cfg, svc, msg, now));
  }

  lemma OnMatchedWhale(s: AgentState, cfg: Config, svc: Services, p: TradePayload, price: real, size: real, now: Timestamp)
    requires ParseField(p.price) == Some(price) && ParseField(p.size) == Some(size)
    requires IsWhaleTrade(cfg, price, size)
    ensures OnMatched(s, cfg, svc, Some(p), now) == ProcessWhale(s, cfg, svc, p, Notional(price, size), now)
  {
  }

  lemma {:induction false} OnMatchedKeepsValid(s: AgentState, cfg: Config, svc: Services,
                                               payload: Option<TradePayload>, now: Timestamp)
    requires Valid(s) && s.whaleTradesDetected < s.totalTradesTracked
    ensures Valid(OnMatched(s, cfg, svc, payload, now))
  {
    var r := OnMatched(s, cfg, svc, payload, now);
    if r != s {
      assert payload.Some?;
      var p := payload.value;
      assert ParseField(p.price).Some?;
      assert ParseField(p.size).Some?;
      var price, size := ParseField(p.price).value, ParseField(p.size).value;
      assert IsWhaleTrade(cfg, price, size);
      assert r == ProcessWhale(s, cfg, svc, p, Notional(price, size), now);
      ProcessWhaleKeepsValid(s, cfg, svc, p, Notional(price, size), now);
    }
  }

  /** `process_whale_trade` keeps the bookkeeping when called, as
      `on_ws_message` calls it, on a parsed payload after a fresh count. */
  lemma {:induction false} ProcessWhaleKeepsValid(s: AgentState, cfg: Config, svc: Services, p: TradePayload,
                                                  usdValue: real, now: Timestamp)
    requires Valid(s) && s.whaleTradesDetected < s.totalTradesTracked
    requires ParseField(p.price).Some? && ParseField(p.size).Some?
    ensures Valid(ProcessWhale(s, cfg, svc, p, usdValue, now))
  {
    var wallet := p.trader.GetOr("Unknown");
    var stats := svc.traderStats(wallet);
    UpsertKeepsRegistry(s.whaleWallets, wallet, stats, now);
    ProcessWhaleRecords(s, cfg, svc, p, usdValue, now);
    ProcessWhaleFrame(s, cfg, svc, p, usdValue, now);
    var winRate := StatOr0(stats, "win_rate");
    if winRate >= cfg.minWhaleWinRate && cfg.autoCopyEnabled {
      var price := ParseField(p.price).value;
      var size := ParseField(p.size).value;
      var row := WhaleTrade(now, p.eventSlug.GetOr(""), p.title.GetOr("Unknown"), wallet, p.side.GetOr(""),
                            price, size, usdValue, winRate, false, false);
      var recorded := s.(whaleTradesDetected := s.whaleTradesDetected + 1,
                         whaleTrades := s.whaleTrades + [row],
                         whaleWallets := UpsertWallet(s.whaleWallets, wallet, stats, now));
      EvaluateCopyKeepsCounts(recorded, cfg, svc, p.eventSlug.GetOr(""), p.title.GetOr("Unknown"),
                              p.side.GetOr(""), usdValue, wallet, now);
    }
  }

  // ---------------------------------------------------------------------------
  // The agent
  // ---------------------------------------------------------------------------

  class WhaleTrackerAgent {
    const config: Config
    var wsConnected: bool
    var totalTradesTracked: nat
    var whaleTradesDetected: nat
    var aiValidatedTrades: nat
    var tradesCopied: nat
    var whaleTrades: seq<WhaleTrade>
    var whaleWallets: seq<WhaleWallet>
    var copySignals: seq<CopySignal>

    function State(): AgentState
      reads this
    {
      AgentState(wsConnected, totalTradesTracked, whaleTradesDetected, aiValidatedTrades, tradesCopied,
                 whaleTrades, whaleWallets, copySignals)
    }

    /** A new agent: disconnected, zero counters, empty tables (loading the
        CSV history is not part of this model). */
    constructor (config: Config)
      ensures this.config == config && State() == InitialState && Valid(State())
    {
      this.config := config;
      wsConnected := false;
      totalTradesTracked, whaleTradesDetected, aiValidatedTrades, tradesCopied := 0, 0, 0, 0;
      whaleTrades, whaleWallets, copySignals := [], [], [];
    }

    /** `on_ws_message`. */
    method OnWsMessage(msg: FeedMessage, svc: Services, now: Timestamp)
      modifies this
      ensures State() == OnMessage(old(State()), config, svc, msg, now)
      ensures old(Valid(State())) ==> Valid(State())
    {
      ghost var before := State();
      if Valid(before) {
        MessagePreservesValid(before, config, svc, msg, now);
      }
      match msg
      case Undecodable =>
      case NonObject =>
      case Object(msgType, topic, payload) =>
        if msgType == Some("subscribed") {
          wsConnected := true;
          return;
        }
        if msgType == Some("pong") {
          return;
        }
        if topic == Some("activity") && msgType == Some("orders_matched") {
          totalTradesTracked := totalTradesTracked + 1;
          if !wsConnected {
            wsConnected := true;
          }
          ghost var tracked := State();
          assert OnMessage(before, config, svc, msg, now) == OnMatched(tracked, config, svc, payload, now);
          if payload.None? {
            return;
          }
          var price := ParseField(payload.value.price);
          if price.None? {
            return;
          }
          var size := ParseField(payload.value.size);
          if size.None? {
            return;
          }
          var usdValue := Notional(price.value, size.value);
          if usdValue >= config.minWhaleTradeSize {
            OnMatchedWhale(tracked, config, svc, payload.value, price.value, size.value, now);
            ProcessWhaleTrade(payload.value, usdValue, svc, now);
          }
        }
    }

    /** `process_whale_trade`. */
    method ProcessWhaleTrade(p: TradePayload, usdValue: real, svc: Services, now: Timestamp)
      modifies this
      ensures State() == ProcessWhale(old(State()), config, svc, p, usdValue, now)
    {
      whaleTradesDetected := whaleTradesDetected + 1;
      var marketSlug := p.eventSlug.GetOr("");
      var marketTitle := p.title.GetOr("Unknown");
      var wallet := p.trader.GetOr("Unknown");
      var side := p.side.GetOr("");
      var price := ParseField(p.price);
      if price.None? {
        return;
      }
      var size := ParseField(p.size);
      if size.None? {
        return;
      }
      var traderStats := svc.traderStats(wallet);
      var winRate := StatOr0(traderStats, "win_rate");
      var isQualityWhale := winRate >= config.minWhaleWinRate;
      var row := WhaleTrade(now, marketSlug, marketTitle, wallet, side, price.value, size.value,
                            usdValue, winRate, false, false);
      whaleTrades := whaleTrades + [row];
      UpdateWhaleWallet(wallet, traderStats, now);
      if isQualityWhale && config.autoCopyEnabled {
        EvaluateCopyTrade(marketSlug, marketTitle, side, usdValue, wallet, svc, now);
      }
    }

    /** `_update_whale_wallet`. */
    method UpdateWhaleWallet(wallet: string, stats: Stats, now: Timestamp)
      modifies this
      ensures State() == old(State()).(whaleWallets := UpsertWallet(old(whaleWallets), wallet, stats, now))
    {
      if HasWallet(whaleWallets, wallet) {
        var rows := whaleWallets;
        var i := 0;
        while i < |rows|
          invariant 0 <= i <= |rows| == |whaleWallets|
          invariant forall k :: 0 <= k < i ==> rows[k] == TouchRow(whaleWallets[k], wallet, stats, now)
          invariant forall k :: i <= k < |rows| ==> rows[k] == whaleWallets[k]
        {
          if rows[i].walletAddress == wallet {
            var row := rows[i].(lastSeen := now, tradeCount := rows[i].tradeCount + 1);
            if stats != map[] {
              row := row.(winRate := StatOr0(stats, "win_rate"), totalVolume := StatOr0(stats, "total_volume"),
                          profitLoss := StatOr0(stats, "profit_loss"));
            }
            rows := rows[i := row];
          }
          assert rows[i] == TouchRow(whaleWallets[i], wallet, stats, now);
          i := i + 1;
        }
        whaleWallets := rows;
      } else {
        whaleWallets := whaleWallets + [NewWallet(wallet, stats, now)];
      }
    }

    /** `_evaluate_copy_trade`. */
    method EvaluateCopyTrade(marketSlug: string, marketTitle: string, whaleSide: string, whaleSizeUsd: real,
                             whaleWallet: string, svc: Services, now: Timestamp)
      modifies this
      ensures State() == EvaluateCopy(old(State()), config, svc, marketSlug, marketTitle, whaleSide,
                                      whaleSizeUsd, whaleWallet, now)
    {
      var aiApproved := Polymarket.AiValidateTrade(svc.swarm(marketSlug, whaleSide), config.minAiConsensus);
      if !aiApproved {
        return;
      }
      aiValidatedTrades := aiValidatedTrades + 1;
      var copySizeUsd := CopySize(config, whaleSizeUsd);
      var balance := svc.balance;
      if balance < copySizeUsd {
        return;
      }
      if config.autoCopyEnabled {
        var tokenId := TokenFor(marketSlug, whaleSide);
        var orderId := svc.placeMarketOrder(MarketOrderCall(tokenId, copySizeUsd, "BUY", marketSlug, marketTitle));
        var executed := orderId.Some?;
        var signal := CopySignal(now, marketSlug, marketTitle, whaleWallet, whaleSide, whaleSizeUsd, whaleSide,
                                 copySizeUsd, config.minAiConsensus, executed, "PENDING");
        copySignals := copySignals + [signal];
        if executed {
          tradesCopied := tradesCopied + 1;
        }
      }
    }
  }
}

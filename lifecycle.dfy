/**
 * The per-market state of the market maker and what one call of each of
 * its state-changing operations does to it, as functions of the state
 * before and of the exchange's answers. The class in module Bot runs
 * these operations in place and is proved to agree with them.
 */
module Lifecycle {
  import opened Wrappers
  import opened BotConfig
  import opened Quoting

  /** The two order slots the bot tracks, in the order it visits them. */
  datatype Slot = Bid | Ask

  /** The side of an order sent to the exchange. */
  datatype Side = Buy | Sell

  function SideName(side: Side): string {
    match side
    case Buy => "buy"
    case Sell => "sell"
  }

  /** The market's YES outcome, which the bot quotes. */
  datatype Outcome = Outcome(outcomeId: string, price: real)

  datatype Market = Market(marketId: string, title: string, yes: Outcome)

  /** A position reported by the exchange. */
  datatype Position = Position(outcomeId: string, size: int)

  /** An open order as the exchange lists it. */
  datatype ListedOrder = ListedOrder(id: string, outcomeId: string)

  /** An order the bot keeps in a slot: the placement's answer. */
  datatype TrackedOrder = TrackedOrder(id: string, status: string)

  /** The exchange's current view of a tracked order. */
  datatype FetchedOrder = FetchedOrder(status: string, filled: nat)

  /** One call to place an order. */
  datatype OrderRequest = OrderRequest(side: Side, price: real, size: int)

  type Slots = map<Slot, Option<TrackedOrder>>

  /** Both slots empty, as after construction and after a successful cancel. */
  const NoOrders: Slots := map[Bid := None, Ask := None]

  lemma NoOrdersCoversSlots()
    ensures forall slot: Slot :: slot in NoOrders
  {
    forall slot: Slot ensures slot in NoOrders {
      match slot
      case Bid =>
      case Ask =>
    }
  }

  /** Everything the bot mutates for its market. */
  datatype Ledger = Ledger(inventory: int, openOrders: Slots, totalProfit: real, tradesCompleted: nat)
  {
    predicate WellFormed() {
      forall slot: Slot :: slot in openOrders
    }
  }

  const InitialLedger: Ledger := Ledger(0, NoOrders, 0.0, 0)

  // ---------------------------------------------------------------------
  // Market selection

  datatype FindError =
    | SearchFailed(query: string)  // the market search itself raised
    | NoMarkets(query: string)
    | IndexOutOfRange(index: int, found: nat)
    | IndexError(index: int)  // Python's own error for a negative index past the front

  /**
   * `find_market`'s choice among the search results (None when the search
   * raised): an error when the search failed or found nothing or the index
   * is not below the count; otherwise Python indexing, where a negative
   * index counts from the end.
   */
  function SelectMarket(search: Option<seq<Market>>, query: string, index: int): (r: Result<Market, FindError>)
    ensures search.None? ==> r == Failure(SearchFailed(query))
    ensures r.Success? <==> search.Some? && |search.value| > 0 && -|search.value| <= index < |search.value|
    ensures r.Success? ==> r.value in search.value
    ensures r.Success? && index >= 0 ==> r.value == search.value[index]
    ensures r.Success? && index < 0 ==> r.value == search.value[|search.value| + index]
    ensures search == Some([]) ==> r == Failure(NoMarkets(query))
    ensures search.Some? && |search.value| > 0 && index >= |search.value| ==> r == Failure(IndexOutOfRange(index, |search.value|))
  {
    if search.None? then Failure(SearchFailed(query))
    else
      var markets := search.value;
      if |markets| == 0 then Failure(NoMarkets(query))
      else if index >= |markets| then Failure(IndexOutOfRange(index, |markets|))
      else if index < -|markets| then Failure(IndexError(index))
      else Success(markets[if index >= 0 then index else |markets| + index])
  }

  // ---------------------------------------------------------------------
  // Position refresh

  /** The size of the first position on the outcome, or 0 when there is none. */
  function PositionOf(positions: seq<Position>, outcomeId: string): (size: int)
    ensures (forall i :: 0 <= i < |positions| ==> positions[i].outcomeId != outcomeId) ==> size == 0
    ensures forall i :: 0 <= i < |positions| && FirstOn(positions, outcomeId, i) ==> size == positions[i].size
  {
    if positions == [] then 0
    else if positions[0].outcomeId == outcomeId then positions[0].size
    else
      var rest := PositionOf(positions[1..], outcomeId);
      assert forall i :: 1 <= i < |positions| && FirstOn(positions, outcomeId, i) ==> FirstOn(positions[1..], outcomeId, i - 1);
      rest
  }

  /** Position `i` is the first one on the outcome. */
  predicate FirstOn(positions: seq<Position>, outcomeId: string, i: int)
    requires 0 <= i < |positions|
  {
    positions[i].outcomeId == outcomeId && forall j :: 0 <= j < i ==> positions[j].outcomeId != outcomeId
  }

  /** `get_current_position`: the fetched position, or the old inventory when the fetch failed. */
  function RefreshInventory(current: int, positions: Option<seq<Position>>, outcomeId: string): (inventory: int)
    ensures positions.None? ==> inventory == current
    ensures positions.Some? && (forall i :: 0 <= i < |positions.value| ==> positions.value[i].outcomeId != outcomeId) ==> inventory == 0
    ensures positions.Some? ==> forall i :: 0 <= i < |positions.value| && FirstOn(positions.value, outcomeId, i) ==> inventory == positions.value[i].size
  {
    if positions.None? then current else PositionOf(positions.value, outcomeId)
  }

  // ---------------------------------------------------------------------
  // Cancellation

  /** The ids of the listed orders on the outcome, in listing order. */
  function MatchingIds(orders: seq<ListedOrder>, outcomeId: string): (ids: seq<string>)
    ensures |ids| <= |orders|
    ensures forall id :: id in ids <==> exists o :: o in orders && o.outcomeId == outcomeId && o.id == id
  {
    if orders == [] then []
    else
      var rest := MatchingIds(orders[1..], outcomeId);
      assert forall o :: o in orders ==> o == orders[0] || o in orders[1..];
      (if orders[0].outcomeId == outcomeId then [orders[0].id] else []) + rest
  }

  /** What a pass over the listed orders achieved: the cancel calls that succeeded, and whether it ran to the end. */
  datatype CancelReport = CancelReport(cancelled: seq<string>, completed: bool)

  /**
   * The loop of `cancel_open_orders`: in dry run nothing is sent; live,
   * each order on the outcome is cancelled in turn, and the first cancel
   * that fails ends the pass.
   */
  function CancelRun(orders: seq<ListedOrder>, outcomeId: string, dryRun: bool, failures: set<string>): (r: CancelReport)
    ensures dryRun ==> r == CancelReport([], true)
    ensures forall id :: id in r.cancelled ==> id !in failures
  {
    if orders == [] then CancelReport([], true)
    else if dryRun || orders[0].outcomeId != outcomeId then
      CancelRun(orders[1..], outcomeId, dryRun, failures)
    else if orders[0].id in failures then CancelReport([], false)
    else
      var rest := CancelRun(orders[1..], outcomeId, dryRun, failures);
      CancelReport([orders[0].id] + rest.cancelled, rest.completed)
  }

  /**
   * Live, the pass over the listed orders runs to the end exactly when no order on the outcome fails to cancel,
   * and then it has cancelled all of them in listing order; otherwise it
   * has cancelled those before the first failing one, and no others.
   */
  lemma {:induction false} CancelRunSpec(orders: seq<ListedOrder>, outcomeId: string, dryRun: bool, failures: set<string>)
    ensures var r := CancelRun(orders, outcomeId, dryRun, failures);
      var ids := MatchingIds(orders, outcomeId);
      && (r.completed <==> dryRun || forall id :: id in ids ==> id !in failures)
      && (!dryRun && r.completed ==> r.cancelled == ids)
      && (!r.completed ==> |r.cancelled| < |ids| && r.cancelled == ids[..|r.cancelled|] && ids[|r.cancelled|] in failures)
  {
    if orders != [] {
      CancelRunSpec(orders[1..], outcomeId, dryRun, failures);
    }
  }

  /** The state after `cancel_open_orders`, and the orders it cancelled. */
  datatype CancelStep = CancelStep(ledger: Ledger, cancelled: seq<string>)

  /**
   * `cancel_open_orders`: the slots are emptied only when the listing
   * succeeded and no cancel call failed; any failure leaves them as they
   * were. Live, every order on the outcome is cancelled when none fails,
   * and otherwise those before the first failing one.
   */
  function CancelOrders(l: Ledger, dryRun: bool, outcomeId: string, listing: Option<seq<ListedOrder>>, failures: set<string>): (r: CancelStep)
    ensures r.ledger == l.(openOrders := r.ledger.openOrders)
    ensures r.ledger.openOrders == NoOrders || r.ledger.openOrders == l.openOrders
    ensures l.WellFormed() ==> r.ledger.WellFormed()
    ensures listing.None? ==> r == CancelStep(l, [])
    ensures listing.Some? && dryRun ==> r == CancelStep(l.(openOrders := NoOrders), [])
    ensures listing.Some? && !dryRun ==>
      var ids := MatchingIds(listing.value, outcomeId);
      && ((forall id :: id in ids ==> id !in failures) ==> r == CancelStep(l.(openOrders := NoOrders), ids))
      && (!(forall id :: id in ids ==> id !in failures) ==>
            && r.ledger == l
            && |r.cancelled| < |ids| && r.cancelled == ids[..|r.cancelled|] && ids[|r.cancelled|] in failures)
  {
    if listing.None? then CancelStep(l, [])
    else
      var run := CancelRun(listing.value, outcomeId, dryRun, failures);
      CancelRunSpec(listing.value, outcomeId, dryRun, failures);
      NoOrdersCoversSlots();
      CancelStep(if run.completed then l.(openOrders := NoOrders) else l, run.cancelled)
  }

  // ---------------------------------------------------------------------
  // Placement and the update cycle

  /**
   * `place_order`'s answer: in dry run a simulated open order whose id
   * names the side and the time; live, what the exchange's order call
   * returned, or None when it raised.
   */
  function PlaceOrder(dryRun: bool, side: Side, stamp: string, created: Option<TrackedOrder>): (r: Option<TrackedOrder>)
    ensures dryRun ==> r.Some? && r.value.status == "open" && |r.value.id| >= 8 && r.value.id[..8] == "dry-run-"
    ensures !dryRun ==> r == created
  {
    if dryRun then Some(TrackedOrder("dry-run-" + SideName(side) + "-" + stamp, "open"))
    else created
  }

  /** In dry run the simulated buy and sell orders never share an id, whatever the time stamps. */
  lemma DryRunIdsDistinct(bidStamp: string, askStamp: string, bidCreated: Option<TrackedOrder>, askCreated: Option<TrackedOrder>)
    ensures PlaceOrder(true, Buy, bidStamp, bidCreated).value.id != PlaceOrder(true, Sell, askStamp, askCreated).value.id
  {
    var b := PlaceOrder(true, Buy, bidStamp, bidCreated).value.id;
    var s := PlaceOrder(true, Sell, askStamp, askCreated).value.id;
    assert b[8] == 'b' && s[8] == 's';
  }

  /** The exchange's answers during one `update_quotes`. */
  datatype CycleInputs = CycleInputs(
    positions: Option<seq<Position>>,    // fetch_positions; None when it raised
    book: Option<OrderBook>,             // the order book; None when fetching it failed
    listing: Option<seq<ListedOrder>>,   // fetch_open_orders; None when it raised
    cancelFailures: set<string>,         // ids whose cancel call raises
    bidStamp: string, askStamp: string,  // the clock, as it appears in dry-run ids
    bidCreated: Option<TrackedOrder>,    // the exchange's answer to the buy order; None when it raised
    askCreated: Option<TrackedOrder>)    // the same for the sell order

  /** The state after `update_quotes`, the orders it cancelled and the orders it asked to place. */
  datatype CycleReport = CycleReport(ledger: Ledger, cancelled: seq<string>, requests: seq<OrderRequest>)

  /** The risk halt: the position has reached the inventory limit on either side. */
  predicate Halted(inventory: int, cfg: Config): (halted: bool)
    ensures halted <==> inventory >= cfg.maxInventory || inventory <= -cfg.maxInventory
  {
    Abs(inventory) >= cfg.maxInventory
  }

  /**
   * `update_quotes`: refresh the position; at the limit cancel and stop;
   * without a book stop; otherwise quote around the fair price, cancel,
   * place a buy at the bid and a sell at the ask, and keep in each slot
   * the order its placement returned.
   */
  function UpdateCycle(l: Ledger, cfg: Config, outcome: Outcome, inputs: CycleInputs): (r: CycleReport)
    requires l.WellFormed()
    ensures r.ledger.WellFormed()
  {
    var inventory := RefreshInventory(l.inventory, inputs.positions, outcome.outcomeId);
    var refreshed := l.(inventory := inventory);
    if Halted(inventory, cfg) then
      var c := CancelOrders(refreshed, cfg.dryRun, outcome.outcomeId, inputs.listing, inputs.cancelFailures);
      CycleReport(c.ledger, c.cancelled, [])
    else if inputs.book.None? then
      CycleReport(refreshed, [], [])
    else
      var q := QuotePrices(FairPrice(inputs.book, outcome.price), inventory, cfg);
      var c := CancelOrders(refreshed, cfg.dryRun, outcome.outcomeId, inputs.listing, inputs.cancelFailures);
      var bidOrder := PlaceOrder(cfg.dryRun, Buy, inputs.bidStamp, inputs.bidCreated);
      var askOrder := PlaceOrder(cfg.dryRun, Sell, inputs.askStamp, inputs.askCreated);
      var slots := c.ledger.openOrders;
      var slots := if bidOrder.Some? then slots[Bid := bidOrder] else slots;
      var slots := if askOrder.Some? then slots[Ask := askOrder] else slots;
      CycleReport(c.ledger.(openOrders := slots), c.cancelled,
        [OrderRequest(Buy, q.bid, cfg.orderSize), OrderRequest(Sell, q.ask, cfg.orderSize)])
  }

  /** At the inventory limit the cycle cancels and places nothing. */
  lemma HaltedCyclePlacesNothing(l: Ledger, cfg: Config, outcome: Outcome, inputs: CycleInputs)
    requires l.WellFormed()
    requires Halted(RefreshInventory(l.inventory, inputs.positions, outcome.outcomeId), cfg)
    ensures var r := UpdateCycle(l, cfg, outcome, inputs);
      var c := CancelOrders(l, cfg.dryRun, outcome.outcomeId, inputs.listing, inputs.cancelFailures);
      && r.requests == []
      && r.cancelled == c.cancelled
      && r.ledger.openOrders == c.ledger.openOrders
  {
  }

  /** Without a book the cycle neither cancels nor places; only the position is refreshed. */
  lemma NoBookCycleIsQuiet(l: Ledger, cfg: Config, outcome: Outcome, inputs: CycleInputs)
    requires l.WellFormed()
    requires !Halted(RefreshInventory(l.inventory, inputs.positions, outcome.outcomeId), cfg)
    requires inputs.book.None?
    ensures var r := UpdateCycle(l, cfg, outcome, inputs);
      && r.requests == [] && r.cancelled == []
      && r.ledger == l.(inventory := RefreshInventory(l.inventory, inputs.positions, outcome.outcomeId))
  {
  }

  /**
   * A cycle that quotes asks for one buy at the bid and one sell at the
   * ask, both of `order_size`, and a slot changes away from its
   * post-cancel value only to the order its placement returned.
   */
  lemma QuotingCycle(l: Ledger, cfg: Config, outcome: Outcome, inputs: CycleInputs)
    requires l.WellFormed()
    requires !Halted(RefreshInventory(l.inventory, inputs.positions, outcome.outcomeId), cfg)
    requires inputs.book.Some?
    ensures var inventory := RefreshInventory(l.inventory, inputs.positions, outcome.outcomeId);
      var q := QuotePrices(FairPrice(inputs.book, outcome.price), inventory, cfg);
      var c := CancelOrders(l, cfg.dryRun, outcome.outcomeId, inputs.listing, inputs.cancelFailures);
      var bidOrder := PlaceOrder(cfg.dryRun, Buy, inputs.bidStamp, inputs.bidCreated);
      var askOrder := PlaceOrder(cfg.dryRun, Sell, inputs.askStamp, inputs.askCreated);
      var r := UpdateCycle(l, cfg, outcome, inputs);
      && r.requests == [OrderRequest(Buy, q.bid, cfg.orderSize), OrderRequest(Sell, q.ask, cfg.orderSize)]
      && r.cancelled == c.cancelled
      && r.ledger.openOrders[Bid] == (if bidOrder.Some? then bidOrder else c.ledger.openOrders[Bid])
      && r.ledger.openOrders[Ask] == (if askOrder.Some? then askOrder else c.ledger.openOrders[Ask])
  {
  }

  /** The update cycle leaves the trade statistics alone and sets the inventory to the refreshed position. */
  lemma CycleKeepsStats(l: Ledger, cfg: Config, outcome: Outcome, inputs: CycleInputs)
    requires l.WellFormed()
    ensures var r := UpdateCycle(l, cfg, outcome, inputs);
      && r.ledger.totalProfit == l.totalProfit
      && r.ledger.tradesCompleted == l.tradesCompleted
      && r.ledger.inventory == RefreshInventory(l.inventory, inputs.positions, outcome.outcomeId)
  {
  }

  /**
   * Under a valid configuration every order a cycle asks for is of
   * `order_size` > 0 at a price in [0.01, 0.99]; orders are asked for
   * only below the inventory limit, and then the buy is below the sell by
   * at least `min_spread`.
   */
  lemma ValidCycleIsSafe(l: Ledger, cfg: Config, outcome: Outcome, inputs: CycleInputs)
    requires l.WellFormed() && cfg.Valid()
    ensures var r := UpdateCycle(l, cfg, outcome, inputs);
      && (forall req :: req in r.requests ==> req.size == cfg.orderSize > 0 && MinPrice <= req.price <= MaxPrice)
      && (r.requests != [] ==>
            && !Halted(r.ledger.inventory, cfg)
            && |r.requests| == 2
            && r.requests[0].side == Buy && r.requests[1].side == Sell
            && r.requests[1].price - r.requests[0].price >= cfg.minSpread > 0.0)
  {
    var inventory := RefreshInventory(l.inventory, inputs.positions, outcome.outcomeId);
    ValidConfigQuotes(FairPrice(inputs.book, outcome.price), inventory, cfg);
  }

  // ---------------------------------------------------------------------
  // Fill detection

  /** What looking at one slot yields: nothing to ask, a failed fetch, or the exchange's view. */
  datatype Probe = Untracked | FetchFailed | Fetched(order: FetchedOrder)

  /**
   * A slot is asked about when it holds an order with a non-empty id;
   * the answer is the exchange's view of that id, and an id it has no
   * answer for is a fetch that raised.
   */
  function ProbeSlot(tracked: Option<TrackedOrder>, responses: map<string, FetchedOrder>): Probe {
    if tracked.None? || tracked.value.id == "" then Untracked
    else if tracked.value.id in responses then Fetched(responses[tracked.value.id])
    else FetchFailed
  }

  /** Only the status "filled" counts as a fill; a partial fill is ignored. */
  predicate FillSeen(p: Probe) {
    p.Fetched? && p.order.status == "filled"
  }

  /**
   * One detected fill: a bid fill adds to the inventory and an ask fill
   * takes from it; an ask fill earns `target_spread` per contract once a
   * trade has already been counted; every fill counts a trade and clears
   * its slot.
   */
  function ApplyFill(l: Ledger, slot: Slot, filled: nat, targetSpread: real): (r: Ledger)
    ensures l.WellFormed() ==> r.WellFormed()
    ensures slot in r.openOrders && r.openOrders[slot] == None && r.tradesCompleted == l.tradesCompleted + 1
    ensures forall s :: s != slot && s in l.openOrders ==> s in r.openOrders && r.openOrders[s] == l.openOrders[s]
    ensures slot == Bid ==> r.inventory == l.inventory + filled && r.totalProfit == l.totalProfit
    ensures slot == Ask ==> r.inventory == l.inventory - filled
    ensures targetSpread >= 0.0 ==> r.totalProfit >= l.totalProfit
  {
    Ledger(
      inventory := if slot == Bid then l.inventory + filled else l.inventory - filled,
      openOrders := l.openOrders[slot := None],
      totalProfit := if slot == Ask && l.tradesCompleted > 0 then l.totalProfit + targetSpread * (filled as real) else l.totalProfit,
      tradesCompleted := l.tradesCompleted + 1)
  }

  /** The loop of `check_fills` over the given slots; a failed fetch ends it. */
  function ScanFills(l: Ledger, slots: seq<Slot>, responses: map<string, FetchedOrder>, targetSpread: real): (r: Ledger)
    requires l.WellFormed()
    ensures r.WellFormed()
    ensures forall s :: s !in slots ==> r.openOrders[s] == l.openOrders[s]
    decreases |slots|
  {
    if slots == [] then l
    else
      match ProbeSlot(l.openOrders[slots[0]], responses)
      case Untracked => ScanFills(l, slots[1..], responses, targetSpread)
      case FetchFailed => l
      case Fetched(o) =>
        var next := if o.status == "filled" then ApplyFill(l, slots[0], o.filled, targetSpread) else l;
        ScanFills(next, slots[1..], responses, targetSpread)
  }

  /** `check_fills`: nothing in dry run; otherwise the bid slot, then the ask slot. */
  function AfterFills(l: Ledger, cfg: Config, responses: map<string, FetchedOrder>): (r: Ledger)
    requires l.WellFormed()
    ensures r.WellFormed()
    ensures cfg.dryRun ==> r == l
  {
    if cfg.dryRun then l else ScanFills(l, [Bid, Ask], responses, cfg.targetSpread)
  }

  /**
   * What `check_fills` does, slot by slot: the bid fill is seen when its
   * fetch says "filled"; the ask fill is seen likewise unless the bid's
   * fetch failed first. Each seen fill moves the inventory by its size,
   * counts a trade and clears its slot; the ask fill earns
   * `target_spread` per contract when a trade was counted before it.
   */
  lemma FillsEffect(l: Ledger, cfg: Config, responses: map<string, FetchedOrder>)
    requires l.WellFormed() && !cfg.dryRun
    ensures var bidProbe := ProbeSlot(l.openOrders[Bid], responses);
      var askProbe := ProbeSlot(l.openOrders[Ask], responses);
      var bidFilled := FillSeen(bidProbe);
      var askFilled := !bidProbe.FetchFailed? && FillSeen(askProbe);
      var bought := if bidFilled then bidProbe.order.filled else 0;
      var sold := if askFilled then askProbe.order.filled else 0;
      var r := AfterFills(l, cfg, responses);
      && r.inventory == l.inventory + bought - sold
      && r.tradesCompleted == l.tradesCompleted + (if bidFilled then 1 else 0) + (if askFilled then 1 else 0)
      && r.totalProfit == l.totalProfit +
           (if askFilled && (bidFilled || l.tradesCompleted > 0) then cfg.targetSpread * (sold as real) else 0.0)
      && r.openOrders[Bid] == (if bidFilled then None else l.openOrders[Bid])
      && r.openOrders[Ask] == (if askFilled then None else l.openOrders[Ask])
  {
    var bidProbe := ProbeSlot(l.openOrders[Bid], responses);
    var askProbe := ProbeSlot(l.openOrders[Ask], responses);
    var afterBid := if FillSeen(bidProbe) then ApplyFill(l, Bid, bidProbe.order.filled, cfg.targetSpread) else l;
    assert [Bid, Ask][0] == Bid && [Bid, Ask][1..] == [Ask];
    assert [Ask][0] == Ask && [Ask][1..] == [];
    if !bidProbe.FetchFailed? {
      assert ScanFills(l, [Bid, Ask], responses, cfg.targetSpread) == ScanFills(afterBid, [Ask], responses, cfg.targetSpread);
      assert ProbeSlot(afterBid.openOrders[Ask], responses) == askProbe;
      var afterAsk := if FillSeen(askProbe) then ApplyFill(afterBid, Ask, askProbe.order.filled, cfg.targetSpread) else afterBid;
      assert ScanFills(afterBid, [Ask], responses, cfg.targetSpread) == ScanFills(afterAsk, [], responses, cfg.targetSpread);
    }
  }

  /** When no tracked order reports "filled", `check_fills` changes nothing. */
  lemma NoFillNoChange(l: Ledger, cfg: Config, responses: map<string, FetchedOrder>)
    requires l.WellFormed()
    requires !FillSeen(ProbeSlot(l.openOrders[Bid], responses))
    requires !FillSeen(ProbeSlot(l.openOrders[Ask], responses))
    ensures AfterFills(l, cfg, responses) == l
  {
    if !cfg.dryRun {
      FillsEffect(l, cfg, responses);
    }
  }

  /**
   * Over any sequence of slots: profit never falls when the target spread
   * is not negative, each visited slot counts at most one trade, and a
   * slot is only ever kept or cleared, never given a new order.
   */
  lemma {:induction false} ScanFillsMonotone(l: Ledger, slots: seq<Slot>, responses: map<string, FetchedOrder>, targetSpread: real)
    requires l.WellFormed() && targetSpread >= 0.0
    decreases |slots|
    ensures var r := ScanFills(l, slots, responses, targetSpread);
      && r.totalProfit >= l.totalProfit
      && l.tradesCompleted <= r.tradesCompleted <= l.tradesCompleted + |slots|
      && forall s :: r.openOrders[s] == l.openOrders[s] || r.openOrders[s] == None
  {
    if slots != [] {
      match ProbeSlot(l.openOrders[slots[0]], responses)
      case Untracked =>
        ScanFillsMonotone(l, slots[1..], responses, targetSpread);
      case FetchFailed =>
      case Fetched(o) =>
        var next := if o.status == "filled" then ApplyFill(l, slots[0], o.filled, targetSpread) else l;
        ScanFillsMonotone(next, slots[1..], responses, targetSpread);
    }
  }

  /** One iteration of the bot's main loop: `check_fills`, then `update_quotes`. */
  function Iteration(l: Ledger, cfg: Config, outcome: Outcome, responses: map<string, FetchedOrder>, inputs: CycleInputs): (r: CycleReport)
    requires l.WellFormed()
    ensures r.ledger.WellFormed()
    ensures var afterFills := AfterFills(l, cfg, responses);
      r.ledger.totalProfit == afterFills.totalProfit && r.ledger.tradesCompleted == afterFills.tradesCompleted
  {
    CycleKeepsStats(AfterFills(l, cfg, responses), cfg, outcome, inputs);
    UpdateCycle(AfterFills(l, cfg, responses), cfg, outcome, inputs)
  }

  /**
   * Across one iteration with a non-negative target spread, realised
   * profit and the trade count never fall, and the trade count rises by at
   * most two (one per slot).
   */
  lemma IterationStatsMonotone(l: Ledger, cfg: Config, outcome: Outcome, responses: map<string, FetchedOrder>, inputs: CycleInputs)
    requires l.WellFormed() && cfg.targetSpread >= 0.0
    ensures var r := Iteration(l, cfg, outcome, responses, inputs);
      && r.ledger.totalProfit >= l.totalProfit
      && l.tradesCompleted <= r.ledger.tradesCompleted <= l.tradesCompleted + 2
  {
    if !cfg.dryRun {
      ScanFillsMonotone(l, [Bid, Ask], responses, cfg.targetSpread);
    }
    CycleKeepsStats(AfterFills(l, cfg, responses), cfg, outcome, inputs);
  }
}

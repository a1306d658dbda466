/**
 * The market maker for one market: its mutable state and the operations
 * that update it in place. Every answer of the exchange is a parameter;
 * each method is proved to leave the state that the corresponding
 * function of module Lifecycle describes.
 */
module Bot {
  import opened Wrappers
  import opened BotConfig
  import opened Quoting
  import opened Lifecycle

  class MarketMaker {
    const config: Config
    const exchange: Client
    var market: Option<Market>
    var outcome: Option<Outcome>
    var currentInventory: int
    var openOrders: map<Slot, Option<TrackedOrder>>
    var totalProfit: real
    var tradesCompleted: nat

    /** Both slots exist, and the quoted outcome is the selected market's YES outcome. */
    ghost predicate Valid()
      reads this
    {
      && State().WellFormed()
      && (market.Some? <==> outcome.Some?)
      && (market.Some? ==> outcome.value == market.value.yes)
    }

    /** The mutable part of the bot as one value. */
    function State(): Ledger
      reads this
    {
      Ledger(currentInventory, openOrders, totalProfit, tradesCompleted)
    }

    /** The state `__init__` sets up once the exchange client exists. */
    constructor (config: Config, exchange: Client)
      ensures Valid()
      ensures this.config == config && this.exchange == exchange
      ensures market.None? && State() == InitialLedger
    {
      this.config := config;
      this.exchange := exchange;
      market := None;
      outcome := None;
      currentInventory := 0;
      openOrders := NoOrders;
      totalProfit := 0.0;
      tradesCompleted := 0;
      new;
      NoOrdersCoversSlots();
    }

    /**
     * `MarketMaker(config)`: the platform check and client construction
     * of `_initialize_exchange`, whose failure is the constructor's raise.
     */
    static method Create(config: Config) returns (r: Result<MarketMaker, InitError>)
      ensures r.Success? <==> InitializeExchange(config).Success?
      ensures r.Failure? ==> r.error == InitializeExchange(config).error
      ensures r.Success? ==>
        && fresh(r.value) && r.value.Valid()
        && r.value.config == config && r.value.exchange == InitializeExchange(config).value
        && r.value.market.None? && r.value.State() == InitialLedger
    {
      match InitializeExchange(config)
      case Failure(e) =>
        r := Failure(e);
      case Success(client) =>
        var bot := new MarketMaker(config, client);
        r := Success(bot);
    }

    /**
     * `find_market`: select a search result (None when the search raised)
     * by the configured index; on error nothing changes.
     */
    method FindMarket(search: Option<seq<Market>>) returns (r: Result<Market, FindError>)
      requires Valid()
      modifies this`market, this`outcome
      ensures Valid()
      ensures r == SelectMarket(search, config.marketQuery, config.marketIndex)
      ensures r.Success? ==> market == Some(r.value) && outcome == Some(r.value.yes)
      ensures r.Failure? ==> market == old(market) && outcome == old(outcome)
    {
      r := SelectMarket(search, config.marketQuery, config.marketIndex);
      if r.Success? {
        market := Some(r.value);
        outcome := Some(r.value.yes);
      }
    }

    /**
     * `get_current_position`: take the size of the first position on the
     * quoted outcome, or 0 when there is none; keep the old inventory when
     * the positions could not be fetched.
     */
    method GetCurrentPosition(positions: Option<seq<Position>>) returns (inventory: int)
      requires Valid() && outcome.Some?
      modifies this`currentInventory
      ensures Valid()
      ensures inventory == currentInventory
      ensures currentInventory == RefreshInventory(old(currentInventory), positions, outcome.value.outcomeId)
    {
      if positions.None? {
        return currentInventory;
      }
      var all := positions.value;
      var id := outcome.value.outcomeId;
      var i := 0;
      while i < |all|
        invariant 0 <= i <= |all|
        invariant PositionOf(all[i..], id) == PositionOf(all, id)
      {
        if all[i].outcomeId == id {
          currentInventory := all[i].size;
          return currentInventory;
        }
        assert all[i..][1..] == all[i + 1..];
        i := i + 1;
      }
      currentInventory := 0;
      return 0;
    }

    /**
     * `cancel_open_orders`: cancel every listed order on the quoted
     * outcome (only announce it in dry run), then empty both slots; a
     * failed listing or a failed cancel skips the rest, slots included.
     */
    method CancelOpenOrders(listing: Option<seq<ListedOrder>>, failures: set<string>) returns (cancelled: seq<string>)
      requires Valid() && outcome.Some?
      modifies this`openOrders
      ensures Valid()
      ensures var c := CancelOrders(old(State()), config.dryRun, outcome.value.outcomeId, listing, failures);
        State() == c.ledger && cancelled == c.cancelled
    {
      cancelled := [];
      if listing.None? {
        return;
      }
      var orders := listing.value;
      var id := outcome.value.outcomeId;
      var i := 0;
      while i < |orders|
        invariant 0 <= i <= |orders|
        invariant var rest := CancelRun(orders[i..], id, config.dryRun, failures);
          CancelRun(orders, id, config.dryRun, failures) == CancelReport(cancelled + rest.cancelled, rest.completed)
        invariant State() == old(State())
      {
        assert orders[i..][1..] == orders[i + 1..];
        var order := orders[i];
        if order.outcomeId == id && !config.dryRun {
          if order.id in failures {
            return;
          }
          cancelled := cancelled + [order.id];
        }
        i := i + 1;
      }
      openOrders := NoOrders;
      NoOrdersCoversSlots();
    }

    /**
     * `update_quotes`: one quoting cycle. Returns the orders it cancelled
     * and the orders it asked to place.
     */
    method UpdateQuotes(inputs: CycleInputs) returns (cancelled: seq<string>, requests: seq<OrderRequest>)
      requires Valid() && outcome.Some?
      modifies this`currentInventory, this`openOrders
      ensures Valid()
      ensures var r := UpdateCycle(old(State()), config, outcome.value, inputs);
        State() == r.ledger && cancelled == r.cancelled && requests == r.requests
    {
      var inventory := GetCurrentPosition(inputs.positions);
      if Abs(inventory) >= config.maxInventory {
        cancelled := CancelOpenOrders(inputs.listing, inputs.cancelFailures);
        requests := [];
        return;
      }
      if inputs.book.None? {
        cancelled, requests := [], [];
        return;
      }
      var fair := FairPrice(inputs.book, outcome.value.price);
      var q := QuotePrices(fair, currentInventory, config);
      cancelled := CancelOpenOrders(inputs.listing, inputs.cancelFailures);
      var bidOrder := PlaceOrder(config.dryRun, Buy, inputs.bidStamp, inputs.bidCreated);
      var askOrder := PlaceOrder(config.dryRun, Sell, inputs.askStamp, inputs.askCreated);
      requests := [OrderRequest(Buy, q.bid, config.orderSize), OrderRequest(Sell, q.ask, config.orderSize)];
      if bidOrder.Some? {
        openOrders := openOrders[Bid := bidOrder];
      }
      if askOrder.Some? {
        openOrders := openOrders[Ask := askOrder];
      }
    }

    /**
     * One pass of `check_fills`'s loop body: ask the exchange about the
     * order in `slot` and book it when it reports "filled". `stop` is the
     * fetch that raised, which ends the loop.
     */
    method CheckSlot(slot: Slot, responses: map<string, FetchedOrder>) returns (stop: bool)
      requires Valid()
      modifies this`currentInventory, this`openOrders, this`totalProfit, this`tradesCompleted
      ensures Valid()
      ensures var probe := ProbeSlot(old(openOrders[slot]), responses);
        && (stop <==> probe.FetchFailed?)
        && State() == (if FillSeen(probe) then ApplyFill(old(State()), slot, probe.order.filled, config.targetSpread) else old(State()))
    {
      var order := openOrders[slot];
      if order.None? || order.value.id == "" {
        return false;
      }
      if order.value.id !in responses {
        return true;
      }
      var updated := responses[order.value.id];
      if updated.status == "filled" {
        if slot == Bid {
          currentInventory := currentInventory + updated.filled;
        } else {
          currentInventory := currentInventory - updated.filled;
        }
        if slot == Ask && tradesCompleted > 0 {
          totalProfit := totalProfit + config.targetSpread * (updated.filled as real);
        }
        tradesCompleted := tradesCompleted + 1;
        openOrders := openOrders[slot := None];
      }
      return false;
    }

    /**
     * `check_fills`: in live mode visit the bid slot, then the ask slot,
     * and book every order the exchange reports as "filled".
     */
    method CheckFills(responses: map<string, FetchedOrder>)
      requires Valid()
      modifies this`currentInventory, this`openOrders, this`totalProfit, this`tradesCompleted
      ensures Valid()
      ensures State() == AfterFills(old(State()), config, responses)
    {
      if config.dryRun {
        return;
      }
      var slots := [Bid, Ask];
      var i := 0;
      while i < |slots|
        invariant 0 <= i <= |slots|
        invariant Valid()
        invariant ScanFills(State(), slots[i..], responses, config.targetSpread)
          == ScanFills(old(State()), slots, responses, config.targetSpread)
      {
        assert slots[i..][1..] == slots[i + 1..];
        var stop := CheckSlot(slots[i], responses);
        if stop {
          return;
        }
        i := i + 1;
      }
    }

    /** One iteration of the main loop: detect fills, then requote. */
    method RunIteration(responses: map<string, FetchedOrder>, inputs: CycleInputs) returns (cancelled: seq<string>, requests: seq<OrderRequest>)
      requires Valid() && outcome.Some?
      modifies this`currentInventory, this`openOrders, this`totalProfit, this`tradesCompleted
      ensures Valid()
      ensures var r := Iteration(old(State()), config, outcome.value, responses, inputs);
        State() == r.ledger && cancelled == r.cancelled && requests == r.requests
    {
      CheckFills(responses);
      cancelled, requests := UpdateQuotes(inputs);
    }
  }
}

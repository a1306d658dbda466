/**
 * The pricing side of the market maker: the fair price read off the order
 * book, and the bid/ask pair quoted around it with an inventory skew,
 * clamping to the tradable price range and a minimum-spread repair.
 * Prices are exact reals.
 */
module Quoting {
  import opened Wrappers
  import opened BotConfig

  /** The tradable price range of a binary-outcome contract. */
  const MinPrice: real := 0.01
  const MaxPrice: real := 0.99

  /** One price level of an order book. */
  datatype Level = Level(price: real, size: real)

  /** An order book, best level first on each side. */
  datatype OrderBook = OrderBook(bids: seq<Level>, asks: seq<Level>)

  /** A bid/ask pair. */
  datatype Quote = Quote(bid: real, ask: real)
  {
    function Spread(): real { ask - bid }

    predicate InBounds() {
      MinPrice <= bid <= MaxPrice && MinPrice <= ask <= MaxPrice
    }

    predicate AtOrBelow(other: Quote) {
      bid <= other.bid && ask <= other.ask
    }
  }

  /** Python's two-argument `max` and `min` on prices. */
  function Max(a: real, b: real): real { if a >= b then a else b }
  function Min(a: real, b: real): real { if a <= b then a else b }

  function Abs(n: int): nat { if n < 0 then -n else n }

  /** `max(0.01, min(0.99, x))`. */
  function Clamp(x: real): (r: real)
    ensures MinPrice <= r <= MaxPrice
    ensures MinPrice <= x <= MaxPrice ==> r == x
    ensures x < MinPrice ==> r == MinPrice
    ensures x > MaxPrice ==> r == MaxPrice
  {
    Max(MinPrice, Min(MaxPrice, x))
  }

  /**
   * `calculate_fair_price`: the mid of the best bid and best ask; the
   * outcome's last price when there is no book or either side is empty.
   */
  function FairPrice(book: Option<OrderBook>, lastPrice: real): (fair: real)
    ensures book.None? || book.value.bids == [] || book.value.asks == [] ==> fair == lastPrice
    ensures book.Some? && book.value.bids != [] && book.value.asks != [] ==>
      var bestBid, bestAsk := book.value.bids[0].price, book.value.asks[0].price;
      && fair - bestBid == bestAsk - fair
      && (bestBid <= bestAsk ==> bestBid <= fair <= bestAsk)
  {
    if book.None? || book.value.bids == [] || book.value.asks == [] then lastPrice
    else (book.value.bids[0].price + book.value.asks[0].price) / 2.0
  }

  /**
   * The inventory skew: `-inventory * factor`, but only outside the
   * deadband `|inventory| <= threshold`.
   */
  function InventorySkew(inventory: int, threshold: int, factor: real): (skew: real)
    ensures skew != 0.0 <==> Abs(inventory) > threshold && inventory != 0 && factor != 0.0
    ensures factor >= 0.0 && inventory >= 0 ==> skew <= 0.0
    ensures factor >= 0.0 && inventory <= 0 ==> skew >= 0.0
    ensures factor > 0.0 && inventory > 0 && inventory > threshold ==> skew < 0.0
    ensures factor > 0.0 && inventory < 0 && -inventory > threshold ==> skew > 0.0
  {
    if Abs(inventory) > threshold then
      ProductSign(inventory, factor);
      -(inventory as real) * factor
    else 0.0
  }

  /** Sign rules for an integer times a real. */
  lemma ProductSign(n: int, f: real)
    ensures (n as real) * f == 0.0 <==> n == 0 || f == 0.0
    ensures n > 0 && f > 0.0 ==> (n as real) * f > 0.0
    ensures n < 0 && f > 0.0 ==> (n as real) * f < 0.0
    ensures n >= 0 && f >= 0.0 ==> (n as real) * f >= 0.0
    ensures n <= 0 && f >= 0.0 ==> (n as real) * f <= 0.0
  {
    var x := n as real;
    if x > 0.0 && f > 0.0 {
      assert x * f > 0.0;
    } else if x < 0.0 && f > 0.0 {
      assert (-x) * f > 0.0;
    } else if x > 0.0 && f < 0.0 {
      assert x * (-f) > 0.0;
    } else if x < 0.0 && f < 0.0 {
      assert (-x) * (-f) > 0.0;
    }
  }

  /** Both sides split symmetrically around the adjusted fair price, then clamped. */
  function ClampedQuote(adjustedFair: real, targetSpread: real): (q: Quote)
    ensures q.InBounds()
  {
    Quote(Clamp(adjustedFair - targetSpread / 2.0), Clamp(adjustedFair + targetSpread / 2.0))
  }

  /**
   * The two-stage minimum-spread repair applied to a clamped quote whose
   * spread fell below `minSpread`: re-centre on the quote's midpoint at
   * exactly `minSpread`, clamped; if a bound still eats into the spread,
   * pin that side to the bound and rebuild the other at `minSpread`.
   */
  function RepairSpread(q: Quote, minSpread: real): (r: Quote)
    ensures q.Spread() >= minSpread ==> r == q
    ensures q.InBounds() && 0.0 <= minSpread ==> r.InBounds()
  {
    if q.Spread() >= minSpread then q
    else
      var mid := (q.bid + q.ask) / 2.0;
      var halfSpread := minSpread / 2.0;
      var bid := Max(MinPrice, mid - halfSpread);
      var ask := Min(MaxPrice, mid + halfSpread);
      if ask - bid >= minSpread then Quote(bid, ask)
      else if bid <= MinPrice then Quote(MinPrice, Min(MaxPrice, MinPrice + minSpread))
      else if ask >= MaxPrice then Quote(Max(MinPrice, MaxPrice - minSpread), MaxPrice)
      else Quote(bid, ask)
  }

  /** The quote built around an already skewed fair price. */
  function QuoteAround(adjustedFair: real, targetSpread: real, minSpread: real): (q: Quote)
    ensures minSpread >= 0.0 ==> q.InBounds()
  {
    RepairSpread(ClampedQuote(adjustedFair, targetSpread), minSpread)
  }

  /** `calculate_quote_prices`: the bid and ask quoted at `fair` holding `inventory`. */
  function QuotePrices(fair: real, inventory: int, cfg: Config): (q: Quote)
    ensures cfg.minSpread >= 0.0 ==> q.InBounds()
  {
    var skew := InventorySkew(inventory, cfg.rebalanceThreshold, cfg.inventoryAdjustmentFactor);
    QuoteAround(fair + skew, cfg.targetSpread, cfg.minSpread)
  }

  /**
   * With a minimum spread no wider than the price range allows, the
   * quote is crossed-free and at least `minSpread` wide.
   */
  lemma QuoteKeepsMinSpread(adjustedFair: real, targetSpread: real, minSpread: real)
    requires 0.0 < minSpread <= MaxPrice - MinPrice
    ensures var q := QuoteAround(adjustedFair, targetSpread, minSpread);
      q.bid < q.ask && q.Spread() >= minSpread
  {
  }

  /**
   * Whenever the repair fires, the final spread is exactly `minSpread`,
   * or the whole price range when `minSpread` is wider than that.
   */
  lemma RepairSpreadExact(q: Quote, minSpread: real)
    requires q.InBounds() && 0.0 <= minSpread
    requires q.Spread() < minSpread
    ensures RepairSpread(q, minSpread).Spread() == Min(minSpread, MaxPrice - MinPrice)
    ensures RepairSpread(q, minSpread).InBounds()
  {
  }

  /**
   * Away from the bounds, and with the target spread at least the minimum,
   * the quote is the adjusted fair price plus and minus half the target spread.
   */
  lemma QuoteUnclamped(adjustedFair: real, targetSpread: real, minSpread: real)
    requires MinPrice <= adjustedFair - targetSpread / 2.0
    requires adjustedFair + targetSpread / 2.0 <= MaxPrice
    requires 0.0 <= targetSpread && minSpread <= targetSpread
    ensures QuoteAround(adjustedFair, targetSpread, minSpread)
      == Quote(adjustedFair - targetSpread / 2.0, adjustedFair + targetSpread / 2.0)
  {
  }

  /** Raising the adjusted fair price never lowers either side of the quote. */
  lemma QuoteMonotone(lower: real, higher: real, targetSpread: real, minSpread: real)
    requires lower <= higher
    requires 0.0 <= minSpread
    ensures QuoteAround(lower, targetSpread, minSpread).AtOrBelow(QuoteAround(higher, targetSpread, minSpread))
  {
  }

  /** Inside the deadband the quote is the one quoted with no inventory at all. */
  lemma DeadbandIsNeutral(fair: real, inventory: int, cfg: Config)
    requires Abs(inventory) <= cfg.rebalanceThreshold
    ensures QuotePrices(fair, inventory, cfg) == QuotePrices(fair, 0, cfg)
  {
  }

  /** Long inventory never raises either side relative to the neutral quote. */
  lemma LongInventoryLowersQuotes(fair: real, inventory: int, cfg: Config)
    requires inventory >= 0 && cfg.inventoryAdjustmentFactor >= 0.0
    requires 0.0 <= cfg.minSpread
    ensures QuotePrices(fair, inventory, cfg).AtOrBelow(QuotePrices(fair, 0, cfg))
  {
    var skew := InventorySkew(inventory, cfg.rebalanceThreshold, cfg.inventoryAdjustmentFactor);
    assert InventorySkew(0, cfg.rebalanceThreshold, cfg.inventoryAdjustmentFactor) == 0.0;
    QuoteMonotone(fair + skew, fair + 0.0, cfg.targetSpread, cfg.minSpread);
  }

  /** Short inventory never lowers either side relative to the neutral quote. */
  lemma ShortInventoryRaisesQuotes(fair: real, inventory: int, cfg: Config)
    requires inventory <= 0 && cfg.inventoryAdjustmentFactor >= 0.0
    requires 0.0 <= cfg.minSpread
    ensures QuotePrices(fair, 0, cfg).AtOrBelow(QuotePrices(fair, inventory, cfg))
  {
    var skew := InventorySkew(inventory, cfg.rebalanceThreshold, cfg.inventoryAdjustmentFactor);
    assert InventorySkew(0, cfg.rebalanceThreshold, cfg.inventoryAdjustmentFactor) == 0.0;
    QuoteMonotone(fair + 0.0, fair + skew, cfg.targetSpread, cfg.minSpread);
  }

  /** Neither the neutral nor the skewed split around `fair` touches a bound. */
  predicate Unclamped(fair: real, skew: real, targetSpread: real) {
    && MinPrice <= fair + skew - targetSpread / 2.0 && fair + skew + targetSpread / 2.0 <= MaxPrice
    && MinPrice <= fair - targetSpread / 2.0 && fair + targetSpread / 2.0 <= MaxPrice
  }

  /** Beyond the threshold and away from the bounds, long inventory strictly lowers both sides. */
  lemma LongInventoryStrictlyLowers(fair: real, inventory: int, cfg: Config)
    requires inventory > 0 && inventory > cfg.rebalanceThreshold && cfg.inventoryAdjustmentFactor > 0.0
    requires 0.0 <= cfg.minSpread <= cfg.targetSpread
    requires Unclamped(fair, InventorySkew(inventory, cfg.rebalanceThreshold, cfg.inventoryAdjustmentFactor), cfg.targetSpread)
    ensures var q, neutral := QuotePrices(fair, inventory, cfg), QuotePrices(fair, 0, cfg);
      q.bid < neutral.bid && q.ask < neutral.ask
  {
    var skew := InventorySkew(inventory, cfg.rebalanceThreshold, cfg.inventoryAdjustmentFactor);
    QuoteUnclamped(fair + skew, cfg.targetSpread, cfg.minSpread);
    QuoteUnclamped(fair + 0.0, cfg.targetSpread, cfg.minSpread);
  }

  /** Beyond the threshold and away from the bounds, short inventory strictly raises both sides. */
  lemma ShortInventoryStrictlyRaises(fair: real, inventory: int, cfg: Config)
    requires inventory < 0 && -inventory > cfg.rebalanceThreshold && cfg.inventoryAdjustmentFactor > 0.0
    requires 0.0 <= cfg.minSpread <= cfg.targetSpread
    requires Unclamped(fair, InventorySkew(inventory, cfg.rebalanceThreshold, cfg.inventoryAdjustmentFactor), cfg.targetSpread)
    ensures var q, neutral := QuotePrices(fair, inventory, cfg), QuotePrices(fair, 0, cfg);
      q.bid > neutral.bid && q.ask > neutral.ask
  {
    var skew := InventorySkew(inventory, cfg.rebalanceThreshold, cfg.inventoryAdjustmentFactor);
    QuoteUnclamped(fair + skew, cfg.targetSpread, cfg.minSpread);
    QuoteUnclamped(fair + 0.0, cfg.targetSpread, cfg.minSpread);
  }

  /**
   * Under a valid configuration every quote lies in the price range, is
   * not crossed and is at least `min_spread` wide.
   */
  lemma ValidConfigQuotes(fair: real, inventory: int, cfg: Config)
    requires cfg.Valid()
    ensures var q := QuotePrices(fair, inventory, cfg);
      q.InBounds() && q.bid < q.ask && q.Spread() >= cfg.minSpread
  {
    var skew := InventorySkew(inventory, cfg.rebalanceThreshold, cfg.inventoryAdjustmentFactor);
    QuoteKeepsMinSpread(fair + skew, cfg.targetSpread, cfg.minSpread);
  }

  /** Worked examples at the shipped parameters (target 0.04, minimum 0.02, threshold 50, factor 0.01): inside the deadband. */
  lemma ShippedNeutralQuotes(env: map<string, string>)
    ensures var cfg := DefaultConfig(env);
      && QuotePrices(0.52, 0, cfg) == Quote(0.50, 0.54)
      && QuotePrices(0.52, 25, cfg) == Quote(0.50, 0.54)
  {
    var cfg := DefaultConfig(env);
    assert InventorySkew(25, cfg.rebalanceThreshold, cfg.inventoryAdjustmentFactor) == 0.0;
  }

  /** At the shipped parameters an inventory of 60 either way pushes the quotes into a bound. */
  lemma ShippedSkewedQuotes(env: map<string, string>)
    ensures var cfg := DefaultConfig(env);
      && QuotePrices(0.52, 60, cfg) == Quote(0.01, 0.03)
      && QuotePrices(0.52, -60, cfg) == Quote(0.97, 0.99)
  {
    var cfg := DefaultConfig(env);
    assert InventorySkew(60, cfg.rebalanceThreshold, cfg.inventoryAdjustmentFactor) == -0.6;
    assert ClampedQuote(-0.08, 0.04) == Quote(0.01, 0.01);
    assert InventorySkew(-60, cfg.rebalanceThreshold, cfg.inventoryAdjustmentFactor) == 0.6;
    assert ClampedQuote(1.12, 0.04) == Quote(0.99, 0.99);
  }

  /** Near the upper bound the repair restores the configured minimum spread. */
  lemma ShippedEdgeQuotes(env: map<string, string>)
    ensures var cfg := DefaultConfig(env);
      && QuotePrices(0.98, 0, cfg) == Quote(0.96, 0.99)
      && QuotePrices(0.98, 0, cfg.(minSpread := 0.04)) == Quote(0.95, 0.99)
  {
    assert ClampedQuote(0.98, 0.04) == Quote(0.96, 0.99);
  }
}

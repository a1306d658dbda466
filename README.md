# Market maker for binary prediction markets — a Dafny model

This project models the quoting and inventory engine of a liquidity-providing
bot for binary-outcome prediction markets (`MarketMaker` in
`market-making-bot/bot.py`), together with the configuration record it reads
(`market-making-bot/config.py`).

For one market, the bot does the following:

- It quotes a bid and an ask around a fair price: the mid of the best bid and best ask.
- It skews the quotes against its inventory once that inventory leaves a deadband.
- It clamps both quotes to the tradable range [0.01, 0.99].
- It repairs the spread when the clamping has squeezed it below a minimum.
- It stops quoting while the inventory is at its limit.
- It books fills reported by the exchange into inventory, a trade count and a realised-profit figure.

The exchange is an opaque collaborator. Every answer it gives is a parameter of the model:

- the market search, positions, the order book and the open-order listing;
- the failing cancellations;
- the placement results;
- each order's fill status.

A call that raises in the original is `None`, a missing map entry, or a member of a failure set. The one exception is the SDK's client constructors, whose own raise is not modelled (see below).

Prices are exact reals. Inventory and fill sizes are integers.

Files and modules:

- `wrappers.dfy` (`Wrappers`): `Option` and `Result`.
- `config.dfy` (`BotConfig`): the configuration record, the shipped defaults, the validity ranges, and the platform check with client construction.
- `quoting.dfy` (`Quoting`): the pure pricing functions (fair price, inventory skew, clamping, spread repair) and their lemmas.
- `lifecycle.dfy` (`Lifecycle`): the bot's mutable state as a value (`Ledger`), and what each state-changing operation does to it, as functions of the old state and the exchange's answers, with lemmas.
- `bot.dfy` (`Bot`): the class `MarketMaker`. Its fields are updated in place by methods that run the original's loops, and each method is proved to produce the state the matching `Lifecycle` function describes.

The code makes these choices, and the model keeps them:

- **Deadband.** Inventory skew applies only when `|inventory| > rebalance_threshold`. It is not a linear correction at every inventory.
- **Risk halt.** The halt is a plain `|inventory| >= max_inventory` test at the start of each cycle. There is no halted/active state with hysteresis.
- **Cycle order.** A cycle runs: refresh position, then risk test, then order book, then quote, then cancel, then place. Cancelling comes after quoting, and a halted cycle cancels and stops.
- **Fair price.** The fair price is never unavailable: an empty or one-sided book falls back to the outcome's last price. A missing book ends the cycle.
- **Fills.** Fills are the slots whose status is `"filled"`; partial fills are ignored. Every fill counts as a trade. Profit is `target_spread × filled` on an ask fill once a trade has been counted; there is no round-trip matching.
- **Dry run.** Fill detection is skipped entirely in dry run.
- **Minimum spread.** The repair keeps the final spread at `min_spread` whenever it fires, as long as `min_spread <= 0.98`. Wider minimums give the whole range [0.01, 0.99].

Two test expectations do not match the code. With the shipped parameters, an inventory of ±60 at fair price 0.52 gives the quotes (0.01, 0.03) and (0.97, 0.99), a spread of 0.02, not 0.04. `Quoting.ShippedSkewedQuotes` proves these values.

## Model

| member | source | states |
|---|---|---|
| `BotConfig.DefaultConfig` | market-making-bot/config.py:10-50 | The shipped configuration satisfies every range the configuration tests demand (supported platform, 0 < min_spread < target_spread ≤ 0.10, positive sizes, threshold within (0, max_inventory], factor in [0.001, 0.05], interval 5–300 s) and ships in dry-run mode |
| `BotConfig.Config.Valid` | market-making-bot/tests/test_config.py:37-102 | The ranges the configuration tests demand, as one predicate; a valid configuration has 0 < min_spread < 0.10 and a rebalance threshold within (0, max_inventory] |
| `BotConfig.InitializeExchange` | market-making-bot/bot.py:25-50 | It fails with the unsupported-platform error exactly when the platform is not polymarket, kalshi or limitless. It succeeds exactly when the platform is supported and its credential table holds every key that platform's client reads. The client it builds is that platform's, built from exactly those credentials |
| `BotConfig.DefaultCredentialsComplete` | market-making-bot/config.py:37-49 | Whatever the environment holds, switching the shipped configuration to any supported platform builds a client without a missing key |
| `BotConfig.DefaultConfigInitializes` | market-making-bot/config.py:12 | The shipped configuration builds a Polymarket client holding the environment's private key |
| `Quoting.Clamp` | market-making-bot/bot.py:134-136 | The clamped price lies in [0.01, 0.99]; a price already inside is unchanged, one below becomes 0.01 and one above becomes 0.99 |
| `Quoting.FairPrice` | market-making-bot/bot.py:103-113 | With no book or an empty side, the fair price is the outcome's last price. Otherwise it is equidistant from the best bid and the best ask, and lies between them when they are not crossed |
| `Quoting.InventorySkew` | market-making-bot/bot.py:122-127 | The skew is non-zero exactly when the inventory is outside the deadband, non-zero, and the factor is non-zero. With a non-negative factor it is never positive for long inventory and never negative for short inventory. Beyond the threshold with a positive factor it is strictly negative (long) or strictly positive (short) |
| `Quoting.ClampedQuote` | market-making-bot/bot.py:129-136 | The symmetric split around the adjusted fair price, once clamped, lies in the price range |
| `Quoting.QuoteAround` | market-making-bot/bot.py:129-154 | For any non-negative minimum spread, both quotes lie in [0.01, 0.99] |
| `Quoting.RepairSpread` | market-making-bot/bot.py:138-154 | A quote already at least min_spread wide is returned unchanged, and an in-range quote stays in range after the repair for any min_spread ≥ 0 (its exact final spread is `RepairSpreadExact`) |
| `Quoting.QuotePrices` | market-making-bot/bot.py:115-156 | For any inputs with min_spread ≥ 0, the bid and the ask lie in [0.01, 0.99] |
| `Quoting.QuoteKeepsMinSpread` | market-making-bot/bot.py:138-154 | For 0 < min_spread ≤ 0.98, the bid is strictly below the ask and the spread is at least min_spread, whatever the fair price and target spread |
| `Quoting.RepairSpreadExact` | market-making-bot/bot.py:138-154 | Whenever the repair fires on an in-range quote, the final spread is exactly min_spread, or 0.98 (the whole range) when min_spread exceeds it, and the result stays in range |
| `Quoting.QuoteUnclamped` | market-making-bot/bot.py:129-136 | When adjusted_fair ± target_spread/2 stays inside [0.01, 0.99] and min_spread ≤ target_spread, the quote is exactly (adjusted_fair − target_spread/2, adjusted_fair + target_spread/2) |
| `Quoting.QuoteMonotone` | market-making-bot/bot.py:129-154 | Raising the adjusted fair price never lowers either quote, through clamping and both repair stages, for any target spread and any non-negative minimum |
| `Quoting.DeadbandIsNeutral` | market-making-bot/bot.py:123-127 | Inside the deadband the quotes equal the quotes at zero inventory |
| `Quoting.LongInventoryLowersQuotes` | market-making-bot/bot.py:123-154 | With a non-negative factor, long inventory never raises either quote relative to the neutral quotes |
| `Quoting.ShortInventoryRaisesQuotes` | market-making-bot/bot.py:123-154 | With a non-negative factor, short inventory never lowers either quote relative to the neutral quotes |
| `Quoting.LongInventoryStrictlyLowers` | market-making-bot/bot.py:123-136 | Beyond the threshold, with a positive factor and no clamping, long inventory strictly lowers both quotes |
| `Quoting.ShortInventoryStrictlyRaises` | market-making-bot/bot.py:123-136 | Beyond the threshold, with a positive factor and no clamping, short inventory strictly raises both quotes |
| `Quoting.ValidConfigQuotes` | market-making-bot/bot.py:115-156 | Under a valid configuration every quote is in range, uncrossed and at least min_spread wide |
| `Quoting.ShippedNeutralQuotes` | market-making-bot/bot.py:115-156 | At the shipped parameters, fair price 0.52 gives the quotes (0.50, 0.54) at inventory 0 and at 25 (inside the deadband) |
| `Quoting.ShippedSkewedQuotes` | market-making-bot/bot.py:123-154 | At the shipped parameters, fair price 0.52 gives (0.01, 0.03) at inventory +60 and (0.97, 0.99) at −60: the skew pushes both quotes to a bound and the repair restores only min_spread |
| `Quoting.ShippedEdgeQuotes` | market-making-bot/bot.py:134-154 | At the shipped parameters, fair price 0.98 gives (0.96, 0.99), and (0.95, 0.99) when min_spread is 0.04 |
| `Lifecycle.SelectMarket` | market-making-bot/bot.py:54-69 | A search that raised is the search-failed error. Selection succeeds exactly when the search returned results and −count ≤ index < count. It then picks the index-th result, counting from the end for a negative index. No results is the "no markets" error, and an index at or past the count is the "out of range" error |
| `Lifecycle.PositionOf` | market-making-bot/bot.py:83-89 | The refreshed inventory is the size of the first position on the quoted outcome, or 0 when none is on it |
| `Lifecycle.RefreshInventory` | market-making-bot/bot.py:78-92 | A failed position fetch keeps the old inventory. Otherwise the inventory becomes the size of the first position on the quoted outcome, or 0 when none is on it |
| `Lifecycle.MatchingIds` | market-making-bot/bot.py:163-164 | The ids selected for cancellation are exactly those of listed orders on the quoted outcome |
| `Lifecycle.CancelRun` | market-making-bot/bot.py:160-171 | The pass over the listing sends no cancel in dry run and completes. An id whose cancel fails is never reported cancelled (the rest is `CancelRunSpec`) |
| `Lifecycle.CancelRunSpec` | market-making-bot/bot.py:158-173 | In dry run no cancel is sent and the pass completes. Live, the pass completes exactly when no order on the outcome fails to cancel, and then it has cancelled all of them in listing order. Otherwise it has cancelled exactly those before the first failure. A failing id is never reported cancelled |
| `Lifecycle.CancelOrders` | market-making-bot/bot.py:158-173 | Cancelling touches only the order slots. A failed listing changes nothing, and in dry run the slots are emptied without any cancel. Live, when no order on the outcome fails to cancel, every one of them is cancelled in listing order and both slots are emptied. Otherwise the state is unchanged and exactly the orders before the first failing one were cancelled |
| `Lifecycle.PlaceOrder` | market-making-bot/bot.py:175-195 | In dry run placement yields an open order whose id starts with "dry-run-". Live, it yields exactly what the exchange returned, or nothing when the call raised |
| `Lifecycle.DryRunIdsDistinct` | market-making-bot/bot.py:180 | In dry run the simulated buy and sell orders never share an id |
| `Lifecycle.UpdateCycle` | market-making-bot/bot.py:197-240 | A cycle keeps both order slots present |
| `Lifecycle.HaltedCyclePlacesNothing` | market-making-bot/bot.py:206-210 | At the inventory limit the cycle cancels (with the usual cancel outcome) and asks for no orders |
| `Lifecycle.NoBookCycleIsQuiet` | market-making-bot/bot.py:212-216 | Below the limit, without an order book, the cycle neither cancels nor places; only the inventory is refreshed |
| `Lifecycle.QuotingCycle` | market-making-bot/bot.py:218-240 | Otherwise it asks for one buy at the bid and one sell at the ask, both of order_size, and a slot is overwritten only when its placement returned an order |
| `Lifecycle.CycleKeepsStats` | market-making-bot/bot.py:197-247 | A cycle never changes profit or the trade count, and leaves the inventory at the refreshed position |
| `Lifecycle.ValidCycleIsSafe` | market-making-bot/bot.py:197-240 | Under a valid configuration every requested order has a positive size and an in-range price. Orders are requested only below the inventory limit, as a buy then a sell at least min_spread apart |
| `Lifecycle.AfterFills` | market-making-bot/bot.py:249-252 | In dry run fill detection changes nothing |
| `Lifecycle.ApplyFill` | market-making-bot/bot.py:262-276 | One booked fill clears its slot and leaves the other alone, and counts one trade. A bid fill adds its size to the inventory and leaves profit unchanged. An ask fill subtracts its size. Profit never falls for a non-negative spread |
| `Lifecycle.ScanFills` | market-making-bot/bot.py:255-278 | The fill loop over any sequence of slots keeps both slots present and leaves every slot it does not visit untouched (its monotonicity is `ScanFillsMonotone`) |
| `Lifecycle.FillsEffect` | market-making-bot/bot.py:254-278 | A bid fill adds its size to inventory and an ask fill subtracts it; the ask is not examined when the bid's fetch failed. Each fill counts one trade and clears its slot. Profit rises by target_spread × filled only on an ask fill with a trade already counted before it |
| `Lifecycle.NoFillNoChange` | market-making-bot/bot.py:259 | When no tracked order reports "filled", including partially filled ones, fill detection changes nothing |
| `Lifecycle.ScanFillsMonotone` | market-making-bot/bot.py:255-276 | Over any slots: profit never falls for a non-negative spread, each slot counts at most one trade, and a slot is kept or cleared but never given a new order |
| `Lifecycle.IterationStatsMonotone` | market-making-bot/bot.py:296-300 | Across one fill check plus one cycle, profit and the trade count never fall, and the count grows by at most two |
| `Lifecycle.Iteration` | market-making-bot/bot.py:296-300 | After one fill check and one cycle, profit and the trade count are those the fill check left: the cycle never changes them |
| `Bot.MarketMaker.constructor` | market-making-bot/bot.py:13-21 | A new bot has no market, zero inventory, profit and trades, and both slots empty |
| `Bot.MarketMaker.Create` | market-making-bot/bot.py:13-31 | Construction succeeds exactly when the platform check and client construction do, and reports their error otherwise |
| `Bot.MarketMaker.FindMarket` | market-making-bot/bot.py:54-69 | Selecting a market stores the selected result and its YES outcome; on any error, including a failed search, nothing changes |
| `Bot.MarketMaker.GetCurrentPosition` | market-making-bot/bot.py:78-92 | The loop leaves in the inventory, and returns, the first matching position's size, 0, or the old inventory when the fetch failed |
| `Bot.MarketMaker.CheckSlot` | market-making-bot/bot.py:256-276 | One pass of the fill loop stops exactly when the slot's order fetch raised, and books the order exactly when the exchange reports it "filled", leaving the state `ApplyFill` describes; otherwise nothing changes |
| `Bot.MarketMaker.CancelOpenOrders` | market-making-bot/bot.py:158-173 | The loop cancels as `CancelRun` describes and empties both slots only when the pass completed |
| `Bot.MarketMaker.UpdateQuotes` | market-making-bot/bot.py:197-247 | The in-place cycle leaves exactly the state, cancellations and requests `UpdateCycle` describes |
| `Bot.MarketMaker.CheckFills` | market-making-bot/bot.py:249-278 | The loop over the bid and ask slots leaves exactly the state `AfterFills` describes |
| `Bot.MarketMaker.RunIteration` | market-making-bot/bot.py:296-300 | One loop iteration (fill check, then cycle) leaves exactly the state `Iteration` describes |

## Left out

- BotConfig.InitializeExchange: a raise inside the SDK client constructor itself (for example, one refusing a missing private key) is not modelled, because the SDK is not part of this model. So success means only that the platform is supported and no credential key is missing, and `Bot.MarketMaker.Create` inherits that.
- The exchange SDK itself: searching markets, fetching positions, the book, open orders and orders, placing and cancelling. Each is modelled as an answer passed in, with its failure as `None`, a missing entry or a failure set. Client construction becomes the `Client` value, without the constructor's own failure.
- Console output, timestamps, and the clock in dry-run order ids. The clock is an opaque stamp string.
- The endless `run` loop, its sleep and the keyboard-interrupt shutdown, and `main`. One iteration is modelled as `RunIteration`.
- The statistics printout and the average profit per trade it computes (display only).
- Loading credentials with dotenv: the environment is a map passed to `DefaultConfig`.
- Floating-point rounding: prices are exact reals, so the tests' approximate comparisons have no counterpart.
- The live-mode difference between a placement result that is an SDK object and a dry-run dictionary: both are `TrackedOrder(id, status)`. Whether the SDK object supports `order['id']` is not visible here.
- The behaviour of the cycle methods before a market is selected (attribute errors on a missing market): `main` always selects a market before running, and the methods require one.
- `max_order_age` and `min_order_book_depth` are carried in `Config` but never read by the modelled code, as in the original.
- `test_bot.py` (a live connectivity script) and `run_tests.py` (a test runner) are not part of this model.

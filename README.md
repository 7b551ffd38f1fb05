# Dark pool trading game — a Dafny model of its core

The system is a classroom stock-trading game. Players register by email, and a
round then runs for twelve simulated hours on one shared game object. Each round
secretly picks about a tenth of the players as market makers ("操盘手"); everyone
else is retail ("散户"). Players buy, sell and sell short at the current price
and pay flat or crowding-dependent fees. They can also buy "intel", which pushes
the hourly momentum up or down. Each hour the price moves by trend plus momentum
plus noise, an OHLCV bar is recorded, and every short account whose risk ratio
has fallen below 1.10 is liquidated. After hour 12 every account is settled
into cash, less a 10% management fee, and the dashboard shows a leaderboard
ranked by cash. Admin controls start the round, skip one hour, skip to the end,
or restart with the same roster.

The model has four modules:

- `Account` (`account.dfy`) — the `Player` record: net worth, margin detail,
  status label, and the effect of buy, sell and intel on one account.
- `Market` (`market.dfy`) — the pure mechanics: the capped system log,
  `calculate_impact`, the crowding fee, the hourly price step and its bar, the
  liquidation sweep and settlement.
- `Game` (`game.dfy`) — `GameState` as a class whose fields the methods update,
  with the invariant `Valid()` that every operation keeps.
- `Admin` (`admin.dfy`) — the backend's admin controls acting on a `GameState`,
  and the final leaderboard.

Things outside the program become parameters:

- The random draws of `next_hour` are a `Draw`: the noise in [-0.01, 0.01],
  and for each wick a fraction in [0, 1] of half the bar's volatility.
- The hourly trend is the `drift` argument of `StartGame`.
- The market-maker sample is a set of emails of the size `start_game` draws.
- The generated news headline is passed to `PurchaseIntel`.

The `players` dictionary is a `seq<Player>` in insertion order. Email
uniqueness, which the dictionary gives for free, is part of `Valid()`. A lookup
whose email is missing raises `KeyError` in the source before anything
changes; in the model it is the reply `UnknownPlayer`, with the state unchanged.

Two behaviours of the code stand out. Neither is claimed as a bug:

- `sell_stock` lets a flat account open a short only when its cash covers
  (0.5 + fee) times the notional. The sweep liquidates such a short when cash
  is below (1.1 + fee) times the notional. So a short opened at the margin limit
  is liquidated at the next hour even if the price does not move
  (`Account.ShortOpeningWindow`).
- `purchase_intel` appends its headline to `system_logs` directly, not
  through `log`, so that line escapes the 200-line cap. The model does the same.

## Model

| member | source | states |
|---|---|---|
| `Account.NewPlayer` | scripts/game_state.py:7-15 | A new account keeps the email and display name, is retail, holds 100000 cash, no stock, no debt, no notes and no event |
| `Account.NewPlayerIsFlat` | scripts/game_state.py:7-55 | At any price a new account is worth 100000, has 100000 available, is labelled normal and cannot be liquidated |
| `Account.NetWorth` | scripts/game_state.py:17-20 | A flat account is worth its cash less its debt; at a non-negative price a long position adds to that and a short one takes from it |
| `Account.NetWorthMarkToMarket` | scripts/game_state.py:17-20 | Moving the price from a to b changes the net worth by stock × (b − a) |
| `Account.MarginInfo` | scripts/game_state.py:22-36 | Long or flat: (0, 0, cash, 0). Short: notional is \|stock\|·\|price\|, frozen is 1.5 × notional, available is max(0, cash − frozen), risk × notional = cash − notional, and risk is 999 when the notional is 0 |
| `Account.AccountStatus` | scripts/game_state.py:38-55 | The six labels in the source's order: just liquidated iff the flag is set; normal iff not short; otherwise near liquidation below 1.15, margin call below 1.35, frozen when available < 5000, else holding a short |
| `Account.LiquidationThreshold` | scripts/game_state.py:156-161 | At a positive price the sweep's trigger (short and risk < 1.10) holds exactly when the account is short with cash below 2.1 × its short notional |
| `Account.LiquidatableIsNearLiquidation` | scripts/game_state.py:38-55 | An account the sweep would liquidate that was not flagged by the previous sweep already carries the near-liquidation label |
| `Account.FlaggedShortScenario` | scripts/game_state.py:38-55 | The flag is not a trading lock: an account with 6000 cash flagged by the last sweep can short 100 shares at 100, the result is liquidatable, and its label is still "just liquidated" |
| `Account.Liquidatable` | scripts/game_state.py:159-161 | The sweep's trigger, short with risk below 1.10; `LiquidationThreshold` restates it on cash and `LiquidatableIsNearLiquidation` ties it to the labels |
| `Account.ThinShortScenario` | scripts/game_state.py:22-36 | 1000 shares short at 100 with 140000 cash: margin (100000, 150000, 0, 0.4), and it is liquidatable |
| `Account.BaseImpact` | scripts/game_state.py:250-251 | The requested nudge is positive iff bullish; its size is 0.15 for a market maker and 0.05 for retail |
| `Account.BuyAccepted` | scripts/game_state.py:273-280 | A buy goes through exactly when the quantity is positive and the available cash covers qty × price × 1.05; `AcceptedBuyCovers` proves what it guarantees |
| `Account.AfterBuy` | scripts/game_state.py:282-285 | Only the buyer's cash (− qty × price × 1.05), stock (+qty) and notes change; `TradeCosts` proves the net worth drops by the 5% fee |
| `Account.SellAccepted` | scripts/game_state.py:297-303 | A sale is refused only for a non-positive quantity, or when it ends short and cash + proceeds fall below 150% of the new short notional; `AcceptedSellCovers` and `ShortOpeningWindow` are about it |
| `Account.AfterSell` | scripts/game_state.py:305-309 | Only the seller's cash (+ qty × price × (1 − fee)), stock (−qty) and notes change; `TradeCosts` proves the net worth drops by the sale's fee rate |
| `Account.Label` | scripts/game_state.py:40-55 | The text of each of the six status labels, without its leading emoji; `IntelBlockedByLabel` is the property that uses them |
| `Account.Contains` | scripts/game_state.py:242 | Python's substring test `t in s`; `LacksFirst` proves that a text lacking the first character of `t` does not contain it, and `IntelBlockedByLabel` applies it to the labels |
| `Account.IntelAccepted` | scripts/game_state.py:241-247 | An intel purchase passes when the status is not blocked and the available cash is at least 5000; `AcceptedIntelCovers` proves what it guarantees |
| `Account.IntelBlocked` | scripts/game_state.py:242-243 | The intel gate holds for the just-liquidated and the frozen labels only; `IntelBlockedByLabel` proves that this is the substring test |
| `Account.IntelBlockedByLabel` | scripts/game_state.py:38-55 | Over the six label texts, a status is blocked exactly when its label contains 锁定, 冻结 or 爆仓 |
| `Account.AfterIntel` | scripts/game_state.py:249 | Only the buyer's cash and notes change, and stock, role and identity stay |
| `Account.TradeCosts` | scripts/game_state.py:249-309 | At the trade's price a buy costs 5% of the notional in net worth, a sale its fee rate times the notional, and an intel purchase 5000 |
| `Account.AcceptedBuyCovers` | scripts/game_state.py:268-286 | Any buy that passes the available-cash check leaves the account holding the frozen collateral and non-negative cash |
| `Account.AcceptedSellCovers` | scripts/game_state.py:288-310 | An accepted sale keeps a covered account covered, and an accepted sale that ends short leaves any account covered |
| `Account.AcceptedIntelCovers` | scripts/game_state.py:238-249 | An accepted intel purchase (not locked, available ≥ 5000) leaves the account covered after the 5000 charge |
| `Account.BuySellRoundTrip` | scripts/game_state.py:268-310 | For any account, buying then selling qty at the same price restores the position and costs (5% + the sale's fee rate) × the notional in net worth; the sale ends short exactly when the account was short, so it pays the crowding fee then |
| `Account.LongRoundTrip` | scripts/game_state.py:268-310 | For a long or flat account the sale pays the flat fee, so the round trip costs exactly 2 × 5% of the notional |
| `Account.ShortOpeningWindow` | scripts/game_state.py:288-310 | From a flat account, a short sale is accepted iff cash ≥ (0.5 + fee) × notional, and the result is liquidatable at that price iff cash < (1.1 + fee) × notional |
| `Account.FindPlayer` | scripts/game_state.py:89-91 | The dictionary lookup: the first index holding the email, and none exactly when the email is not registered |
| `Market.Logged` | scripts/game_state.py:83-87 | The new line is last; the log grows by one below 200 lines and otherwise keeps its length by dropping the oldest; a log within the cap stays within it |
| `Market.Impact` | scripts/game_state.py:227-232 | A de-risking move passes unchanged; otherwise the request is scaled by (limit − \|momentum\|)/limit below the limit and nothing passes at or above it; for a positive limit the applied part is never larger than the request and has the same sign |
| `Market.ImpactDiminishes` | scripts/game_state.py:229-232 | Diminishing returns: a request that does not de-risk is applied less, or equally, to momentum farther from zero |
| `Market.ImpactStaysWithinLimit` | scripts/game_state.py:227-232 | If momentum and the request are within the volatility limit, the momentum after the attenuated nudge is within it too |
| `Market.TotalShort` | scripts/game_state.py:222 | The total short shares are zero exactly when no account is short |
| `Market.Crowding` | scripts/game_state.py:221-225 | Crowding lies in [0, 1]; it is 1 iff at least 100000 shares are short, and 0 iff nobody is short |
| `Market.ShortFee` | scripts/game_state.py:221-225 | The short fee lies in [5%, 50%]; it is 5% iff nobody is short and 50% iff crowding is saturated |
| `Market.PriceChange` | scripts/game_state.py:128-130 | The change is trend + momentum + noise clamped to [−0.5, 0.5], case by case |
| `Market.MovedPrice` | scripts/game_state.py:131 | The new price lies between 0.5× and 1.5× the old one |
| `Market.MakeBar` | scripts/game_state.py:134-146 | The bar keeps the hour, open, close and volume; the wicks lie above max(open, close) and below min(open, close), by at most half the volatility |
| `Market.BarLowPositive` | scripts/game_state.py:134-137 | A bar whose close is within ±50% of a positive open has a positive low |
| `Market.Liquidate` | scripts/game_state.py:170-177 | The whole short is bought back at the price: stock 0, cash less \|stock\| × price, flagged liquidated, identity and debt kept; for a short account the net worth does not change |
| `Market.SweptPlayer` | scripts/game_state.py:157-180 | One account after the sweep: identity kept; flagged liquidated iff liquidatable, with the short bought back at the price; otherwise the position is untouched; long accounts only lose their flag |
| `Market.LiquidationCount` | scripts/game_state.py:157-161 | At most one liquidation per account, and none exactly when no account is liquidatable |
| `Market.SweepMomentumCounts` | scripts/game_state.py:179 | The momentum the sweep adds is 0.05 times the number of liquidations |
| `Market.LiquidatedQtyBound` | scripts/game_state.py:171-180 | The shares bought back never exceed the total short, and are zero exactly when nobody is liquidated |
| `Market.SweepLogs` | scripts/game_state.py:157-177 | The log of liquidations never shrinks and keeps within the 200-line cap |
| `Market.SweepSparesLongs` | scripts/game_state.py:157-160 | A long or flat account only loses its event flag in the sweep |
| `Market.Settled` | scripts/game_state.py:184-189 | One account at settlement: no stock, cash of 90% of its net worth at the price, identity, role and debt kept |
| `Market.SettleAll` | scripts/game_state.py:184-189 | Every account of the roster is settled, in order, keeping its email and holding no stock |
| `Market.SettlementPaysNinetyPercent` | scripts/game_state.py:182-189 | After settlement each account holds no stock and cash equal to 90% of its net worth at the final price; debt and identity unchanged |
| `Game.MarketMakerQuota` | scripts/game_state.py:112 | Exactly one market maker below 20 players, and a tenth of the roster (rounded down) from 20 on; never more than the roster |
| `Game.RolesFollowSample` | scripts/game_state.py:110-116 | After role assignment the market makers are exactly the sampled players, and a non-empty sample gives at least one |
| `Game.FreshAccounts` | scripts/game_state.py:217 | One new account per registered player, in roster order, with that player's email and name |
| `Game.FreshAccountsKeepRoster` | scripts/game_state.py:216-219 | The next round keeps the same emails (still unique) and names, each account back at the starting cash |
| `Game.ChartGrows` | scripts/game_state.py:139-150 | Appending the next hour's bar, opening at the last close, keeps the chart well formed |
| `Game.GameState.constructor` | scripts/game_state.py:58-60 | A new game is in the reset state with no players |
| `Game.GameState.Reset` | scripts/game_state.py:62-81 | Every field back to its initial value, roster empty, invariant established |
| `Game.GameState.Log` | scripts/game_state.py:83-87 | The system log becomes `Logged` of the old log and the entry |
| `Game.GameState.Register` | scripts/game_state.py:89-96 | Succeeds iff the email is new, appending a fresh retail account; otherwise nothing changes |
| `Game.GameState.StartGame` | scripts/game_state.py:98-118 | Empty roster: refused, nothing changes. Otherwise running in the trading phase at hour 0 with the drawn trend, empty chart, open 100, roles from the sample, one log line; invariant kept |
| `Game.GameState.AssignSampledRoles` | scripts/game_state.py:114-115 | The role loop yields `AssignRoles` of the roster and keeps emails unique |
| `Game.GameState.LiquidatePlayer` | scripts/game_state.py:170-180 | Only that account is liquidated; momentum +0.05, volume + \|stock\|, one log line |
| `Game.GameState.SweepAccount` | scripts/game_state.py:158-165 | One pass of the sweep loop is `SweptPlayer` on that account, with momentum, volume and log moved only when it is liquidated |
| `Game.GameState.LiquidationSweep` | scripts/game_state.py:156-165 | The loop yields `Sweep` of the roster, momentum + 0.05 × liquidations, volume + shares bought back, and `SweepLogs` |
| `Game.GameState.EndGame` | scripts/game_state.py:182-192 | Settlement phase, every account settled, one log line, emails unchanged |
| `Game.GameState.CloseBar` | scripts/game_state.py:120-152 | Price moves by the clamped change, the bar is appended, clock +1, closing price added to history, next hour opens at the close with zero volume and momentum; price and chart invariants kept |
| `Game.GameState.CloseHour` | scripts/game_state.py:120-166 | Bar, sweep and closing log line combined, with every field's new value |
| `Game.GameState.NextHour` | scripts/game_state.py:120-168 | A no-op unless running before hour 12; otherwise the hour closes, and at hour 12 the round is also settled and in the settlement phase; invariant kept |
| `Game.GameState.PrepareNextRound` | scripts/game_state.py:216-219 | Reset state except the roster, which becomes a fresh account per registered identity |
| `Game.GameState.BuyStock` | scripts/game_state.py:268-286 | Non-positive quantity or unknown email: refused, nothing changes. Otherwise done iff available ≥ qty × price × 1.05, updating only that account and the hour's volume |
| `Game.GameState.CalculateShortFee` | scripts/game_state.py:221-225 | Returns `ShortFee` of the roster and caches the crowding ratio |
| `Game.GameState.SellStock` | scripts/game_state.py:288-310 | Non-positive quantity or unknown email: nothing changes. A sale that ends short uses the crowding fee and refreshes the crowding cache even when refused; refused iff cash + proceeds < 150% of the new short notional |
| `Game.GameState.PurchaseIntel` | scripts/game_state.py:234-266 | Unknown email, a just-liquidated or frozen status (the labels holding 爆仓 or 冻结), or available < 5000: refused, nothing changes. Otherwise 5000 is charged, momentum moves by `Impact`, and the headline goes to the system log and the chat |
| `Game.GameState.PostMessage` | scripts/game_state.py:312-316 | Appends one chat line tagged insider iff the sender is a market maker; unknown email changes nothing; invariant kept |
| `Admin.Insert` | backend.py:77-81 | Insertion returns a permutation of the ranked list plus the new account; its head is that account or the old head |
| `Admin.InsertKeepsRanked` | backend.py:77-81 | Inserting into a list ranked by cash keeps it ranked |
| `Admin.Leaderboard` | backend.py:77-81 | The leaderboard is a permutation of the roster, ranked by cash from richest down |
| `Admin.InsertKeepsTies` | backend.py:77-81 | Insertion places the new account ahead of every account with the same cash and keeps their order |
| `Admin.LeaderboardStable` | backend.py:77-81 | The sort is stable: for every cash value, the accounts holding it appear in roster order |
| `Admin.LeaderboardKeepsRanked` | backend.py:77-81 | A roster already ranked by cash comes back in the same order |
| `Admin.LeaderboardIdempotent` | backend.py:77-81 | Ranking the leaderboard again changes nothing |
| `Admin.LeaderboardTop` | backend.py:77-84 | The first row holds at least as much cash as any player |
| `Admin.Standings` | backend.py:75-85 | A table exists exactly in the settlement phase, and it is then a ranked permutation of the roster that keeps roster order among equal cash |
| `Admin.AdminStart` | backend.py:90-92 | With nobody registered the bot joins and becomes the only market maker; in every case the round starts at hour 0 in the trading phase with the drawn trend, an empty chart opening at 100, no volume and one opening log line; only the fields `start_game` writes and the roster change |
| `Admin.AdminSkipTime` | backend.py:94-97 | Not running: refused, nothing changes. Running at hour 12: nothing changes. Otherwise one hour passes: the clock advances, the price moves by the clamped change, the bar and the closing price are recorded, the roster is swept, and at hour 12 it is also settled in the settlement phase; momentum becomes 0.05 × the liquidations, volume the shares bought back, the next hour opens at the close, and the system log gets the sweep's and the closing lines; trend, chat and the crowding cache stay; the notice reports the new hour |
| `Admin.AdminSkipToEnd` | backend.py:99-105 | Not running: refused, nothing changes. Otherwise the clock reaches hour 12 in the settlement phase after exactly 12 − clock calls, under the 20-call bound, with the roster size kept and every position closed (no stock) when the round was not already over; trend, chat and the crowding cache stay |
| `Admin.AdminRestart` | backend.py:107-109 | Reset state with the old roster on fresh accounts |

## Left out

- The user interface, the dashboard text and its emoji, the chat formatting and
  every log text and timestamp. Log lines are abstract `SysLog` values, chat
  lines are `Message` values, and account notes are `Note` values.
- The news generator `scripts/news_system.py` is not part of this model. Its
  formatted headline is a parameter of `PurchaseIntel`.
- `save_game_report` writes a file when the round ends. That is I/O, and it is
  not modelled.
- `random.uniform` and `random.sample` are parameters whose ranges are
  preconditions: `Draw.Valid`, the trend bound, and the sample size.
- The `int(quantity)` conversion of buy and sell, with its "整数" reply for
  text that is not a number, is left out. The model takes an integer quantity.
- Floating point: prices and cash are exact reals, so rounding in the source
  is not modelled.
- Concurrency between sessions sharing the game object is not modelled. Each
  operation is atomic.
- Debt, loans and cooldowns: `debt` is carried and enters net worth and
  settlement, but nothing in the core changes it.
- Trades are not gated by phase. The phase check sits in the UI layer, which is
  not part of this model, so `BuyStock` and `SellStock` accept trades in any
  phase, as `game_state.py` does.
- `Player` objects are values in a sequence, not shared references. The source
  never aliases them outside the dictionary, so only the in-place style of the
  update differs.
- `Admin.AdminSkipToEnd`: it asks for at least 12 draws, since each of the at
  most 12 calls consumes one.

# Pump.fun new-token and big-move watchers, modelled in Dafny

This project models the alerting core of two Telegram watchers for Pump.fun tokens.

- **pumpfun-advanced.js.** On each tick the watcher fetches the newest coins (at most 20).
  - It takes each coin's mint from the first non-empty of `mint`, `mintAddress`, `address` and `tokenMint`. A coin without one is skipped.
  - A mint not yet in the `seen` set is announced once as a new token. If its price is truthy, that price is recorded.
  - A mint already seen gets a new price sample when its price is truthy. Recording a sample prunes the mint's series to the last `WINDOW_MIN` minutes, then appends the sample.
  - A "big move" alert fires when the percentage between the oldest and newest sample is at least `MCAP_JUMP_PCT`. The mint's series is then deleted, so the same move cannot fire again.
  - A `running` flag makes a second start a no-op. Stopping clears the flag.
- **pumpfun-listener.js.** The listener polls the first trending token. It announces the token unless its mint equals `lastSeen`, the last mint it announced.

Files:

- `wrappers.dfy`: `Option`.
- `price_window.dfy` (module `PriceWindow`): samples, the window filter, `recordPrice` over the cache as a value (`Recorded`), and `computeJumpPct` (`JumpPct`). `WINDOW_MIN = 5` and `MCAP_JUMP_PCT = 25` are constants, taken from the defaults in watch-config.js.
- `pumpfun_advanced.dfy` (module `PumpfunAdvanced`):
  - the feed truncation (`NewestCoins`) and mint extraction (`MintOf`);
  - the per-coin decision (`Step`) and its fold over a tick (`Run`);
  - the lemmas about them;
  - the class `PumpfunWatcher`. It holds `running`, `seen` and `cache` and has the methods `Start`, `Stop`, `RecordPrice`, `ProcessItem`, `ProcessAll` and `Tick`. `Start` and `Stop` state their effect on the flag, `seen` and the events directly. `RecordPrice`, `ProcessItem`, `ProcessAll` and `Tick` are proved to match `Recorded`, `Step` and `Run`. Every method keeps `Valid()`: each cache key is a non-empty mint with a non-empty series. This is a sanity invariant, and no other contract relies on it.
- `pumpfun_listener.dfy` (module `PumpfunListener`): the dedup step (`Poll`), its fold (`Notices`), the polling loop (`WatchPumpFun`) and the lemmas about them.

Effects are parameters:

- The pump.fun feed response is a `Payload` value. A failed request is `RequestFailed`.
- The Birdeye price is an `Option<real>`, with `None` for `null`.
- The clock `Date.now()` is a `now: int` in milliseconds, supplied with each coin's price.
- Telegram messages are returned as `Event`/`Message` values, in the order they are sent.

Prices are Dafny `real`. A price is truthy when it is present and non-zero.

The model follows the code where it departs from the usual shape of a polling-and-alerting design:

- A jump compares only the oldest and newest sample in the window. A spike in the middle that retreats raises nothing.
- Pruning filters the whole series, not just its front.
- New tokens are announced whatever their price. No threshold applies to them.
- There is one `seen` set per watcher start, not one per watched target. Restarting the watcher empties it, but the price cache survives.
- Processing is sequential, with no bounded parallelism.

## Model

| member | source | states |
|---|---|---|
| `PriceWindow.Recent` | pumpfun-advanced.js:82 | the filtered series is no longer than the input and every kept sample has `t >= cutoff` |
| `PriceWindow.RecentKeeps` | pumpfun-advanced.js:82 | a sample is kept exactly when it was in the series and `t >= cutoff` (both directions) |
| `PriceWindow.RecentAppend` | pumpfun-advanced.js:82 | filtering distributes over concatenation, so retained samples keep their relative order |
| `PriceWindow.RecentAllInWindow` | pumpfun-advanced.js:81-82 | a series wholly inside the window loses nothing |
| `PriceWindow.Recorded` | pumpfun-advanced.js:77-85 | a falsy price or mint leaves the cache unchanged. Otherwise every other mint keeps its entry and its series. The mint's new series ends with `{t: now, p: price}`, its earlier part is the old series filtered to the window, and every sample has `t >= now - WINDOW_MIN*60*1000` |
| `PriceWindow.JumpPct` | pumpfun-advanced.js:87-94 | zero for fewer than two samples or a zero first or last price |
| `PriceWindow.JumpPctIsPercentChange` | pumpfun-advanced.js:93 | with both end prices non-zero, `jump * first == (last - first) * 100` |
| `PriceWindow.JumpReachesThreshold` | pumpfun-advanced.js:134-135 | for any series of at least two samples, `jump >= MCAP_JUMP_PCT` holds exactly when the first price is positive and `last >= 1.25 * first` (inclusive), or the first price is negative and `last <= 1.25 * first` |
| `PriceWindow.JumpUpwardOnly` | pumpfun-advanced.js:93 | for any series of at least two samples, the jump is positive exactly when the last price is non-zero and moved away from a positive first price upwards or from a negative first price downwards. So with a positive first price, a price that did not rise cannot alert |
| `PriceWindow.RecordedSeries` | pumpfun-advanced.js:79-84 | for a truthy price and a non-empty mint, the mint's new series is its old series filtered to the window, followed by the new sample |
| `PriceWindow.WindowPruningExample` | pumpfun-advanced.js:79-84 | samples at minutes 0, 5 and 8, then a sample recorded at minute 10 with a 5-minute window: the minute-0 sample is dropped and the one exactly at the cutoff is kept |
| `PumpfunAdvanced.NewestCoins` | pumpfun-advanced.js:52-62 | the first `min(n, 20)` coins of the body array or of its `coins` array of length `n`, and none for a non-array body, a missing `coins` array or a failed request |
| `PumpfunAdvanced.MintOf` | pumpfun-advanced.js:111-112 | no mint exactly when all four fields are empty. A found mint is non-empty, and it is `mint`, else `mintAddress`, else `address`, else `tokenMint`: the first non-empty one in that order |
| `PumpfunAdvanced.Step` | pumpfun-advanced.js:110-147 | at most one event, never the activation message. A coin without a mint changes nothing. Otherwise `seen` gains exactly its mint, and any event names that mint. A new-token event is only for a mint not yet seen. A big move is only for a seen mint with a truthy price and a jump at or above the threshold, and that mint then has no series. With `StepRecords`, the price is recorded on both paths |
| `PumpfunAdvanced.Run` | pumpfun-advanced.js:110-147 | the coins of one tick processed in order: at most one event per coin |
| `PumpfunAdvanced.StepSkipsMintless` | pumpfun-advanced.js:111-112 | a coin without a mint changes neither `seen` nor the cache and emits nothing |
| `PumpfunAdvanced.StepSeen` | pumpfun-advanced.js:114-115 | a coin with a mint adds exactly that mint to `seen` |
| `PumpfunAdvanced.StepNewToken` | pumpfun-advanced.js:114-130 | an unseen mint gives exactly one new-token event. A seen mint gives no new-token event |
| `PumpfunAdvanced.StepBigMove` | pumpfun-advanced.js:130-144 | a big move carrying the jump occurs exactly when the mint was seen, the price is truthy and the jump is at least the threshold (inclusive). The mint's series is then deleted. For a seen mint, the events are exactly that big move or nothing, so a jump below the threshold or a falsy price emits nothing |
| `PumpfunAdvanced.StepRecords` | pumpfun-advanced.js:114-144 | for a coin with a mint, the new cache is `Recorded` of the old cache with this price, for a new mint and for a seen one, minus the mint after a big move. So a seen mint below the threshold keeps its pruned series plus the new sample |
| `PumpfunAdvanced.StepFrame` | pumpfun-advanced.js:80-84 | one coin leaves every other mint's series unchanged |
| `PumpfunAdvanced.NoRefireAfterReset` | pumpfun-advanced.js:130-143 | a seen mint without a series (as after an alert) gets a single sample on its next truthy price and raises nothing |
| `PumpfunAdvanced.BigMoveFiresOnce` | pumpfun-advanced.js:114-143 | prices 1.00, 1.30, 1.31 one minute apart give a new-token event, then one 30% big move, then nothing |
| `PumpfunAdvanced.RecordedKeepsCacheWellFormed` | pumpfun-advanced.js:80-84 | recording keeps every cache key a non-empty mint with a non-empty series |
| `PumpfunAdvanced.StepKeepsCacheWellFormed` | pumpfun-advanced.js:130-144 | one coin's decision, including the deletion after an alert, keeps the cache well formed |
| `PumpfunAdvanced.RunKeepsCacheWellFormed` | pumpfun-advanced.js:110-147 | a whole tick keeps the cache well formed |
| `PumpfunAdvanced.RunSeen` | pumpfun-advanced.js:114-115 | after processing coins, `seen` is the old `seen` plus exactly the mints of those coins |
| `PumpfunAdvanced.RunAppend` | pumpfun-advanced.js:106-110 | processing two batches in turn equals processing their concatenation, in state and in event order |
| `PumpfunAdvanced.NoNewTokenForSeen` | pumpfun-advanced.js:114 | a mint already in `seen` is never announced as new again |
| `PumpfunAdvanced.NewTokenExactlyOnce` | pumpfun-advanced.js:114-129 | an unseen mint is announced exactly once if the coins carry it, and never otherwise, however often it repeats |
| `PumpfunAdvanced.RunBigMoveOrigin` | pumpfun-advanced.js:130-143 | every big move of a tick carries a jump at or above the threshold, and comes from a coin of that tick with that mint, a truthy price, and a mint seen before that coin |
| `PumpfunAdvanced.NoNewTokenWhenAllSeen` | pumpfun-advanced.js:114-130 | when every mint of the coins is in `seen`, no new-token event is emitted |
| `PumpfunAdvanced.RefetchAnnouncesNothingNew` | pumpfun-advanced.js:104-130 | a later tick fetching mints already fetched since start announces none of them as new |
| `PumpfunAdvanced.PumpfunWatcher.constructor` | pumpfun-advanced.js:97 | the watcher starts not running, with nothing seen and an empty cache |
| `PumpfunAdvanced.PumpfunWatcher.Start` | pumpfun-advanced.js:99-104 | while running: no event and nothing changes. Otherwise: `running` is set, one activation event, `seen` is empty, the cache is kept |
| `PumpfunAdvanced.PumpfunWatcher.Stop` | pumpfun-advanced.js:155-157 | `running` becomes false |
| `PumpfunAdvanced.PumpfunWatcher.RecordPrice` | pumpfun-advanced.js:77-85 | the filtering loop leaves the cache equal to `Recorded` of the old cache |
| `PumpfunAdvanced.PumpfunWatcher.ProcessItem` | pumpfun-advanced.js:110-147 | the new `seen`, the cache and the events are those `Step` gives for the old state |
| `PumpfunAdvanced.PumpfunWatcher.ProcessAll` | pumpfun-advanced.js:110-147 | the `for` loop over a tick's coins leaves `seen`, the cache and the events equal to `Run` over those coins, and keeps the cache well formed |
| `PumpfunAdvanced.PumpfunWatcher.Tick` | pumpfun-advanced.js:106-147 | when stopped: nothing. Otherwise the new state and events are `Run` over the truncated feed paired with the quotes. The cache stays well formed |
| `PumpfunListener.Poll` | pumpfun-listener.js:33-36 | a notice exactly when a first token exists and its mint differs from `lastSeen`. After a notice `lastSeen` is that mint; otherwise it is unchanged |
| `PumpfunListener.Notices` | pumpfun-listener.js:30-47 | at most one notice per poll, and every notice is a new-token notice |
| `PumpfunListener.WatchPumpFun` | pumpfun-listener.js:24-54 | the loop sends the startup message, then exactly the notices `Notices` gives from `lastSeen = ""` |
| `PumpfunListener.FailedPollsIgnored` | pumpfun-listener.js:31-50 | failed or empty polls send nothing and leave `lastSeen` alone: the notices equal those of the successful polls alone |
| `PumpfunListener.NoticesNeverRepeatConsecutively` | pumpfun-listener.js:35-36 | no two consecutive notices name the same mint, and the first differs from the starting `lastSeen` |
| `PumpfunListener.RepeatedTokenAnnouncedOnce` | pumpfun-listener.js:35-36 | the same token on consecutive polls is announced once, or never if its mint is already `lastSeen` |
| `PumpfunListener.OnlyLatestRemembered` | pumpfun-listener.js:28-36 | A, B, A from startup gives three notices |
| `PumpfunListener.FirstTokenAnnounced` | pumpfun-listener.js:28-35 | after any polls that failed or returned a token whose mint is `""`, the first token whose mint is not `""` is announced |

## Left out

- HTTP calls (pump.fun feed and trending, Birdeye price, Telegram) are not modelled. Their results are inputs and their messages are returned events. Their catch-to-`null`/`[]` fallbacks become `None`, `RequestFailed` or empty inputs.
- Message text is not modelled: HTML, `toFixed`, `toLocaleString`, mint shortening by `slice`, and coin `name`/`symbol`, which appear only in text. The listener's `marketCap` is left out for the same reason.
- NodeCache's one-hour TTL and check period are not modelled. This library-internal expiry is outside the model, so the cache is a plain map.
- `sleep`, the 10-second cadence, `setInterval` and the trending refresher are not modelled: `refreshTrending`, `startTrendingRefresher`, `getTrendingText` and `fetchTrending` with their `Promise.all`. These are timers and concurrent network calls.
- The infinite loops are not modelled as such. `while (running)` becomes repeated calls to `Tick`. The listener's `while (true)` becomes `WatchPumpFun` over a finite sequence of poll results.
- Concurrency between `Stop`/`Start` and a running loop iteration is not modelled. `while (running)` is re-checked only after the sleep, so a stop and restart during a tick's sleep or its awaited price and Telegram calls lets the old loop continue beside the new one.
- Floating point is not modelled. Prices are reals, and NaN (also falsy in JavaScript) is not represented.
- Non-string mint values are not modelled. A coin field that is absent or empty is `""`, since `||` treats both alike. A listener token's `mint` is a string or missing.
- Negative prices are not excluded. Birdeye's `getPriceUSD` (pumpfun-advanced.js:37-49) passes on any number, so the model accepts any real. A real USD price is positive. With a negative first price the percentage formula inverts: a fall from -1.0 to -2.0 counts as +100% and alerts. `JumpReachesThreshold` and `JumpUpwardOnly` state both sign cases.
- `PumpfunAdvanced.PumpfunWatcher.Tick`: requires one quote per truncated coin. The source fetches a price only for coins with a mint, and the quotes of coins without one are ignored.
- index.js (the webhook server and its commands), startup-notify.js and the environment reading in watch-config.js are not part of this model.

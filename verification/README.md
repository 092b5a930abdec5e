# Fixed-window rate limiting, modelled in Dafny

This project models the request-throttling core of a small Express rate
limiter. There are two copies of the same fixed-window accounting:

- the `RateLimter` class of `rate-limiter.js` (spelled `RateLimiter` here). It is a
  module-level singleton holding a map from caller identity to a record
  `{count, timestamp}`. Its `guard()` handler counts every request and
  either passes it on or answers `429 {"error": "Too many requests", "retryAfter": s}`;
- the `InMemoryStorage` counter store of
  `storage-strategies/in-memory-storage.js`. It offers `increment(key, window)`,
  which performs the same step on a key's record and returns it, and `reset(key)`.

Files and modules:

- `fixed_window.dfy`, module `FixedWindow`, holds what both copies share.
  - The record datatype and `Advance`, the step one hit performs on a key's record.
  - The guard's verdict `Admit` and `CeilSeconds`, which is `Math.ceil(ms / 1000)`
    on integers.
  - Store events (`Hit`, `Drop`) and `Apply`, their effect on the whole map.
  - The well-formedness invariant of a store.
- `window_traces.dfy`, module `WindowTraces`, holds properties over sequences of hits.
  - Without an eviction in between, one window admits its first hit and then
    every hit that fewer than `maxHits` hits came before; for `maxHits >= 1`
    that is exactly the first `maxHits`.
  - Keys are isolated from one another under any interleaving of hits, resets
    and evictions.
  - Well-formedness holds along any run.
- `rate_limiter.dfy`, module `RateLimiting`, holds the limiter.
  - Class `RateLimiter` has the `GetIdentifier` strategy selector, the
    `Guard` request handler and the timer eviction `Evict`.
  - Class `LimiterModule` stands for the module scope whose `instance`
    variable makes construction a singleton.
- `in_memory_storage.dfy`, module `InMemory`, holds class `InMemoryStorage`
  with `Increment`, `Reset` and the timer eviction `Evict`.

The clock `Date.now()` is the parameter `now`. A `setTimeout` deletion is an
explicit `Evict` call that may happen at any time. The Express response is the
returned `Verdict`. Records are values: an in-place `count++` on the stored
object replaces the map entry. An undefined identity is `None`.

Two observations about the code are proved as lemmas:

- The guard compares the count with `maxHits` only for a hit inside the
  current window. A first or restarted hit is admitted without that comparison.
  For `maxHits >= 1` the guard therefore denies exactly when the store's
  returned count exceeds `maxHits` (`AdmitMatchesStoredCount`). For
  `maxHits < 1` it admits a first hit anyway (`AdmitIgnoresMaxHitsOnFirstHit`).
- For `1 <= window <= 2^31-1` the timer deletes an entry `window` ms after
  the entry was created. A hit at exactly `now - timestamp == window` still belongs to the old window
  (`AdvanceWithin`). So deleting the entry at that instant changes the verdict
  (`EvictingAtBoundaryIsObservable`). Deleting a strictly expired entry does not
  (`EvictingExpiredIsUnobservable`).

In four places the code does less than a reader of a rate limiter might
expect; the model follows the code:

- The "ip" strategy can yield `undefined`, because it has no `''` fallback.
- The guard keeps its own map and does not go through a counter store.
- Construction validates nothing.
- A second construction silently returns the first instance.

## Model

| member | source | states |
|---|---|---|
| `FixedWindow.Advance` | rate-limiter.js:39-53 | The record after a hit has counted at least one hit. Its window start is the hit's time or the old start, and never lies after the hit when the clock does not go back. |
| `FixedWindow.AdvanceUnseen` | storage-strategies/in-memory-storage.js:12-15 | A key without a record gets `{count: 1, timestamp: now}`. |
| `FixedWindow.AdvanceExpired` | storage-strategies/in-memory-storage.js:20-24 | When `now - timestamp > window`, the record restarts at count 1 with timestamp `now`, whatever its count was. |
| `FixedWindow.AdvanceWithin` | storage-strategies/in-memory-storage.js:26-27 | Within the window, including `now - timestamp == window`, the count rises by exactly one and the timestamp is kept. |
| `FixedWindow.CeilSeconds` | rate-limiter.js:58 | The result is the smallest whole number of seconds covering the given milliseconds: `1000*(s-1) < ms <= 1000*s`. |
| `FixedWindow.CeilSecondsMonotonic` | rate-limiter.js:58 | Rounding milliseconds up to seconds preserves order. |
| `FixedWindow.Admit` | rate-limiter.js:39-62 | A request is denied iff its identity has an unexpired record whose incremented count exceeds `maxHits`. A denial has status 429, tag "Too many requests", and `retryAfter` equal to the ceiling in seconds of the time left in the window. |
| `FixedWindow.DenialRetryBounds` | rate-limiter.js:55-59 | A denial's `retryAfter` lies in `[0, ceil(window/1000)]` when the window began no later than `now`. |
| `FixedWindow.AdmitMatchesStoredCount` | rate-limiter.js:39-62 | For `maxHits >= 1`, the guard denies iff the record the counter store would return counts more than `maxHits`, so a limiter that denies when the store's returned count exceeds `maxHits` would decide as the guard does. |
| `FixedWindow.AdmitIgnoresMaxHitsOnFirstHit` | rate-limiter.js:39-43 | For `maxHits < 1`, a first hit is admitted even though its count exceeds `maxHits`. |
| `FixedWindow.EvictingExpiredIsUnobservable` | rate-limiter.js:41-50 | Deleting a record that is strictly expired at the next hit changes neither that hit's verdict nor the record it leaves. |
| `FixedWindow.EvictingAtBoundaryIsObservable` | rate-limiter.js:41-53 | Deleting a full record exactly `window` ms after its window began turns the next hit at that instant from denied to admitted. |
| `FixedWindow.Apply` | storage-strategies/in-memory-storage.js:12-31 | A hit (under the window its own call passes) or a removal changes the entry of its own key only. A hit leaves the key present and a removal leaves it absent. |
| `FixedWindow.ApplyKeepsWellFormed` | storage-strategies/in-memory-storage.js:13-27 | With a clock that does not go back, every stored record keeps `count >= 1` and `timestamp <= now` across one event. |
| `FixedWindow.WellFormedLater` | storage-strategies/in-memory-storage.js:13-27 | A store well formed at one time stays well formed at any later time. |
| `WindowTraces.Replay` | rate-limiter.js:39-53 | After at least one hit, a key holds a record with a positive count. |
| `WindowTraces.WindowCount` | rate-limiter.js:39-53 | Starting from no record, n hits inside the window opened by the first hit, with no removal of the key in between, leave `{count: n, timestamp: first hit}`. |
| `WindowTraces.FirstMaxHitsAdmitted` | rate-limiter.js:39-62 | Starting from no record, among hits in one window with no removal of the key in between, the first is always admitted. A later hit is admitted iff fewer than `maxHits` hits came before it, so for `maxHits >= 1` exactly the first `maxHits` pass. Every denial has `retryAfter` in `[0, ceil(window/1000)]`. |
| `WindowTraces.ThreeHitsPerThreeSeconds` | index.js:5 | With window 3000 and maxHits 3, three quick requests pass and the fourth is denied with `retryAfter` 3. A request 3130 ms after the first opens a new window at count 1. |
| `WindowTraces.KeyIsolation` | rate-limiter.js:36-53 | After any interleaving of hits (each with its own window), resets and evictions, a key's record depends only on its own record and the events on that key. |
| `WindowTraces.UntouchedKeyKeepsRecord` | storage-strategies/in-memory-storage.js:12-31 | Events that all concern other keys leave a key's record unchanged. |
| `WindowTraces.RunKeepsWellFormed` | storage-strategies/in-memory-storage.js:12-27 | Every record keeps `count >= 1` and `timestamp <= now` along any run whose hits all happen by `now`, whatever window each hit passes. |
| `RateLimiting.RateLimiter.constructor` | rate-limiter.js:8-12 | A new limiter keeps the given window, maxHits, strategy and extractor and starts with no records. |
| `RateLimiting.RateLimiter.GetIdentifier` | rate-limiter.js:17-32 | A configured extractor decides alone. Under "ip" the first truthy of client address, connection address and forwarded-for header wins; the result is undefined only when all three are falsy and the header is missing. "authToken" and "cookie" yield the header or session value, or `""`. Any other strategy yields `""`. |
| `RateLimiting.RateLimiter.Guard` | rate-limiter.js:35-62 | Only the request identity's entry changes, and it becomes the fixed-window step of the old record. The verdict is `Admit` of the old record. Well-formedness is kept when the clock does not go back. |
| `RateLimiting.RateLimiter.Evict` | rate-limiter.js:41 | The timer removes the identity's entry and nothing else. |
| `RateLimiting.LimiterModule.constructor` | rate-limiter.js:1 | The module scope starts with no instance. |
| `RateLimiting.LimiterModule.NewRateLimiter` | rate-limiter.js:1-15 | With an instance in place, construction returns that same instance with its options and records untouched. Otherwise it creates a fresh instance from the options, with defaults "ip" and no extractor, and records it as the instance. |
| `InMemory.InMemoryStorage.constructor` | storage-strategies/in-memory-storage.js:4-7 | A new store is empty. |
| `InMemory.InMemoryStorage.Increment` | storage-strategies/in-memory-storage.js:9-28 | Only `key`'s entry changes, and it becomes the fixed-window step of its old record. The returned record equals the one now stored. Well-formedness is kept when the clock does not go back. |
| `InMemory.InMemoryStorage.Reset` | storage-strategies/in-memory-storage.js:30-32 | `key` is removed and every other entry stays. |
| `InMemory.InMemoryStorage.Evict` | storage-strategies/in-memory-storage.js:14 | The timer removes `key` exactly as `Reset` does. |
| `InMemory.IncrementAfterResetRestarts` | storage-strategies/in-memory-storage.js:12-32 | After a reset or eviction, the key's next increment starts a new window at count 1. |

## Left out

- storage-strategies/redis-storage.js is not part of this model. It is a client of an external key-value service, and its defect is a race between processes.
- storage-strategies/base-storage.js is not part of this model. It holds two methods that only throw "Must implement".
- index.js (the server bootstrap) and test.js (a load generator over HTTP) are not part of this model. Only the configuration in index.js:5 appears, in a lemma.
- Concurrency and `async`: each call is one indivisible step. The in-process map has no interleaving within a call in the source either.
- Timer scheduling: the `Evict` methods and the `Drop` event may happen at any time. The model does not record that the timer is set only when an entry is created, `window` ms later. With a `window` below 1 or above 2^31-1 the timer fires after about 1 ms, so an entry vanishes almost at once and hardly any request is denied. `reset(key)` does not cancel the timer set when the key's earlier record was created, so that timer can delete a record created after the reset before its window ends. Both are instances of an `Evict` or `Drop` at an arbitrary time.
- `WindowTraces.WindowCount`, `WindowTraces.FirstMaxHitsAdmitted`: these cover hits with no eviction in between. At `now - first == window` the creation timer may already have fired, and then the hit starts a new window at count 1 (see `FixedWindow.EvictingAtBoundaryIsObservable`).
- Numbers: counts and times are unbounded integers. JavaScript's doubles are exact at these magnitudes. `Math.ceil` of the quotient is modelled on integers.
- Options that are missing or not numbers (`NaN` comparisons) are not modelled. `window` and `maxHits` are integers.
- Requests: `req.connection` is assumed present (the source would throw without it). Header values are single strings. A custom extractor returns a string or undefined.
- `InMemory.InMemoryStorage.Increment`: on a stored key the source returns the stored object itself, which the caller could later mutate. The model returns a copy, so that aliasing is not captured.
- `RateLimiting.RateLimiter.Guard`: the Express `next()` call and the 429 response are not modelled. The returned `Verdict` carries what they would convey.

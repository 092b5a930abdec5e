/** An optional value; `None` stands for JavaScript's `undefined`. */
module Optional {
  datatype Option<+T> = None | Some(value: T)
}

/**
 * The fixed-window accounting step that both the request guard of the rate
 * limiter and the in-memory counter store perform on a key's record.
 *
 * A record holds the number of hits counted since its window began and the
 * time (epoch milliseconds) at which that window began. The clock is passed in
 * as `now`; nothing here reads a clock.
 */
module FixedWindow {
  import opened Optional

  /** `{count, timestamp}` as stored by both copies of the algorithm. */
  datatype Record = Record(count: nat, timestamp: int)

  /** `map.has(k) ? map.get(k) : undefined`. */
  function Lookup<K>(m: map<K, Record>, k: K): (o: Option<Record>)
    ensures o.Some? <==> k in m
    ensures o.Some? ==> o.value == m[k]
  {
    if k in m then Some(m[k]) else None
  }

  /** A record's window has elapsed once strictly more than `window` ms passed. */
  predicate Expired(r: Record, now: int, window: int)
  {
    now - r.timestamp > window
  }

  /**
   * The record a key holds after one hit at `now`: a fresh record when the key
   * has none, a restarted one when the old window has elapsed, and otherwise the
   * old record with its count raised by one.
   */
  function Advance(prior: Option<Record>, now: int, window: int): (r: Record)
    ensures r.count >= 1
    // the window start is either this hit or the one the record already had
    ensures r.timestamp == now || (prior.Some? && r.timestamp == prior.value.timestamp)
    // a window start never lies after the hit that keeps or creates it
    ensures prior.Some? && prior.value.timestamp <= now ==> r.timestamp <= now
    ensures prior.None? ==> r.timestamp <= now
  {
    match prior
    case None => Record(1, now)
    case Some(data) =>
      if Expired(data, now, window) then data.(count := 1, timestamp := now)
      else data.(count := data.count + 1)
  }

  /** A key without a record gets `{count: 1, timestamp: now}`. */
  lemma AdvanceUnseen(now: int, window: int)
    ensures Advance(None, now, window) == Record(1, now)
  {
  }

  /** A hit after the window has elapsed restarts the record, whatever its count was. */
  lemma AdvanceExpired(r: Record, now: int, window: int)
    requires now - r.timestamp > window
    ensures Advance(Some(r), now, window) == Record(1, now)
  {
  }

  /**
   * A hit within the window, including one exactly `window` ms after the window
   * began, raises the count by exactly one and keeps the window start.
   */
  lemma AdvanceWithin(r: Record, now: int, window: int)
    requires now - r.timestamp <= window
    ensures Advance(Some(r), now, window) == Record(r.count + 1, r.timestamp)
  {
  }

  /** `Math.ceil(ms / 1000)` for an integer number of milliseconds. */
  function CeilSeconds(ms: int): (s: int)
    ensures 1000 * (s - 1) < ms <= 1000 * s
  {
    -((-ms) / 1000)
  }

  lemma CeilSecondsMonotonic(a: int, b: int)
    requires a <= b
    ensures CeilSeconds(a) <= CeilSeconds(b)
  {
  }

  const TooManyRequests: int := 429
  const TooManyRequestsError: string := "Too many requests"

  /**
   * What the guard does with one request: pass it on (`next()`), or answer
   * with status 429 and the body `{error, retryAfter}`.
   */
  datatype Verdict = Allow | Deny(status: int, error: string, retryAfter: nat)

  /**
   * The guard's decision for a hit at `now` on a key whose record before the
   * hit is `prior`. Only a hit that stays in the current window is compared
   * with `maxHits`; a fresh or restarted record is always admitted.
   */
  function Admit(prior: Option<Record>, now: int, window: int, maxHits: int): (v: Verdict)
    ensures v.Deny? <==>
      prior.Some? && !Expired(prior.value, now, window) && prior.value.count + 1 > maxHits
    ensures v.Deny? ==> v.status == 429 && v.error == "Too many requests"
    // retryAfter is the number of whole seconds, rounded up, until the window ends
    ensures v.Deny? ==>
      1000 * (v.retryAfter - 1) < prior.value.timestamp + window - now <= 1000 * v.retryAfter
  {
    match prior
    case None => Allow
    case Some(data) =>
      if Expired(data, now, window) then Allow
      else if data.count + 1 > maxHits then
        Deny(TooManyRequests, TooManyRequestsError, CeilSeconds(data.timestamp + window - now))
      else Allow
  }

  /**
   * On a denial the hint lies between 0 and `ceil(window / 1000)` seconds,
   * given that the clock has not gone back since the window began.
   */
  lemma DenialRetryBounds(prior: Option<Record>, now: int, window: int, maxHits: int)
    requires Admit(prior, now, window, maxHits).Deny?
    requires prior.value.timestamp <= now
    ensures 0 <= Admit(prior, now, window, maxHits).retryAfter <= CeilSeconds(window)
  {
    CeilSecondsMonotonic(prior.value.timestamp + window - now, window);
  }

  /**
   * For a positive `maxHits`, the guard denies exactly when the record the
   * counter store would return counts more than `maxHits` hits, so a limiter that
   * tested the store's returned count would decide as the guard does.
   */
  lemma AdmitMatchesStoredCount(prior: Option<Record>, now: int, window: int, maxHits: int)
    requires maxHits >= 1
    ensures Admit(prior, now, window, maxHits).Deny? <==> Advance(prior, now, window).count > maxHits
  {
  }

  /**
   * With `maxHits` below one the two differ: the guard admits a first hit
   * without comparing its count with `maxHits`.
   */
  lemma AdmitIgnoresMaxHitsOnFirstHit(now: int, window: int, maxHits: int)
    requires maxHits < 1
    ensures Admit(None, now, window, maxHits) == Allow
    ensures Advance(None, now, window).count > maxHits
  {
  }

  /**
   * Removing a record that has already expired at `now` (the timer eviction)
   * changes neither the verdict nor the record that the next hit leaves.
   */
  lemma EvictingExpiredIsUnobservable(r: Record, now: int, window: int, maxHits: int)
    requires Expired(r, now, window)
    ensures Advance(None, now, window) == Advance(Some(r), now, window)
    ensures Admit(None, now, window, maxHits) == Admit(Some(r), now, window, maxHits)
  {
  }

  /**
   * Removing it exactly `window` ms after its window began, when the timer is
   * due, is observable: the next hit at that instant still belongs to the old
   * window if the record is there, and starts a new one if it was removed.
   */
  lemma EvictingAtBoundaryIsObservable(r: Record, window: int, maxHits: int)
    requires r.count >= maxHits
    ensures Admit(Some(r), r.timestamp + window, window, maxHits).Deny?
    ensures Admit(None, r.timestamp + window, window, maxHits) == Allow
  {
  }

  /**
   * A store event: a hit on a key at `now` under the window its caller passes,
   * or the key's removal (reset or timer eviction).
   */
  datatype Event<K> = Hit(key: K, now: int, window: int) | Drop(key: K)

  /** The effect of one event on the whole store. */
  function Apply<K(!new)>(m: map<K, Record>, e: Event<K>): (m': map<K, Record>)
    ensures m'.Keys == if e.Hit? then m.Keys + {e.key} else m.Keys - {e.key}
    ensures forall k :: k != e.key ==> Lookup(m', k) == Lookup(m, k)
  {
    match e
    case Hit(k, now, window) => m[k := Advance(Lookup(m, k), now, window)]
    case Drop(k) => m - {k}
  }

  /** Every stored record has counted a hit and did not begin after `now`. */
  ghost predicate WellFormed<K>(m: map<K, Record>, now: int)
  {
    forall k :: k in m ==> m[k].count >= 1 && m[k].timestamp <= now
  }

  /**
   * An event keeps the store well formed at `now` when it is no hit later than
   * `now`; so, with a clock that never goes back, every event keeps it.
   */
  lemma ApplyKeepsWellFormed<K(!new)>(m: map<K, Record>, e: Event<K>, now: int)
    requires WellFormed(m, now)
    requires e.Hit? ==> e.now <= now
    ensures WellFormed(Apply(m, e), now)
  {
  }

  /** A store well formed at some time stays so as the clock moves forward. */
  lemma WellFormedLater<K>(m: map<K, Record>, before: int, now: int)
    requires WellFormed(m, before) && before <= now
    ensures WellFormed(m, now)
  {
  }
}

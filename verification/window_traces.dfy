/**
 * Properties of the fixed-window step over sequences of events: how many hits
 * one window admits, and why hits on one key never affect another key.
 */
module WindowTraces {
  import opened Optional
  import opened FixedWindow

  /**
   * The record a key holds after hits at `times`, in order, starting from
   * `prior`, with no reset or eviction of the key in between.
   */
  function Replay(prior: Option<Record>, times: seq<int>, window: int): (o: Option<Record>)
    ensures times != [] ==> o.Some? && o.value.count >= 1
    decreases |times|
  {
    if times == [] then prior
    else Some(Advance(Replay(prior, times[..|times| - 1], window), times[|times| - 1], window))
  }

  /** The hits at `times` all fall in the window that the first of them opens. */
  predicate InOneWindow(times: seq<int>, window: int)
  {
    times != [] && forall i :: 0 <= i < |times| ==> times[i] - times[0] <= window
  }

  /**
   * Starting from no record, n hits in one window, with no removal of the key in
   * between, leave `{count: n, timestamp: first hit}`.
   */
  lemma {:induction false} WindowCount(times: seq<int>, window: int)
    requires InOneWindow(times, window)
    ensures Replay(None, times, window) == Some(Record(|times|, times[0]))
  {
    var n := |times|;
    if n > 1 {
      var init := times[..n - 1];
      assert InOneWindow(init, window) by {
        forall i | 0 <= i < |init| ensures init[i] - init[0] <= window {
          assert init[i] == times[i];
        }
      }
      WindowCount(init, window);
      AdvanceWithin(Record(n - 1, times[0]), times[n - 1], window);
    }
  }

  /**
   * Starting from no record, among hits that fall in one window, with no
   * removal of the key in between, the first hit is admitted whatever `maxHits`
   * is, and a later one is admitted exactly when fewer than `maxHits` hits came
   * before it. So for a positive `maxHits` exactly the first `maxHits` are
   * admitted. Every denied hit gets a hint of at most `ceil(window / 1000)`
   * seconds when the clock has not gone back since the first hit.
   */
  lemma FirstMaxHitsAdmitted(times: seq<int>, window: int, maxHits: int)
    requires InOneWindow(times, window)
    ensures forall k :: 0 <= k < |times| ==>
      (Admit(Replay(None, times[..k], window), times[k], window, maxHits).Allow? <==> k == 0 || k < maxHits)
    ensures forall k :: 0 <= k < |times| && times[0] <= times[k] ==>
      var v := Admit(Replay(None, times[..k], window), times[k], window, maxHits);
      v.Deny? ==> 0 <= v.retryAfter <= CeilSeconds(window)
  {
    forall k | 0 <= k < |times|
      ensures Admit(Replay(None, times[..k], window), times[k], window, maxHits).Allow? <==> k == 0 || k < maxHits
      ensures times[0] <= times[k] ==>
        var v := Admit(Replay(None, times[..k], window), times[k], window, maxHits);
        v.Deny? ==> 0 <= v.retryAfter <= CeilSeconds(window)
    {
      if k > 0 {
        var init := times[..k];
        assert InOneWindow(init, window) by {
          forall i | 0 <= i < |init| ensures init[i] - init[0] <= window {
            assert init[i] == times[i];
          }
        }
        WindowCount(init, window);
        if times[0] <= times[k] && Admit(Replay(None, init, window), times[k], window, maxHits).Deny? {
          DenialRetryBounds(Replay(None, init, window), times[k], window, maxHits);
        }
      }
    }
  }

  /**
   * The walk-through for a 3000 ms window and 3 hits: three quick requests are
   * admitted, a fourth 30 ms after the first is told to retry in 3 seconds, and
   * a fifth 3130 ms after the first opens a new window.
   */
  lemma ThreeHitsPerThreeSeconds()
    ensures Admit(Replay(None, [], 3000), 0, 3000, 3) == Allow
    ensures Admit(Replay(None, [0], 3000), 10, 3000, 3) == Allow
    ensures Admit(Replay(None, [0, 10], 3000), 20, 3000, 3) == Allow
    ensures Admit(Replay(None, [0, 10, 20], 3000), 30, 3000, 3) == Deny(429, "Too many requests", 3)
    ensures Admit(Replay(None, [0, 10, 20, 30], 3000), 3130, 3000, 3) == Allow
    ensures Replay(None, [0, 10, 20, 30, 3130], 3000) == Some(Record(1, 3130))
  {
    WindowCount([0, 10, 20], 3000);
    WindowCount([0, 10, 20, 30], 3000);
    assert [0, 10, 20, 30, 3130][..4] == [0, 10, 20, 30];
  }

  /** The store after the events `evs`, applied in order. */
  function Run<K(!new)>(m: map<K, Record>, evs: seq<Event<K>>): map<K, Record>
    decreases |evs|
  {
    if evs == [] then m else Run(Apply(m, evs[0]), evs[1..])
  }

  /** The record of `k` after `evs`, looking at the events on `k` alone. */
  function RunKey<K(==)>(o: Option<Record>, evs: seq<Event<K>>, k: K): Option<Record>
    decreases |evs|
  {
    if evs == [] then o
    else
      var e := evs[0];
      var o' := if e.key != k then o else if e.Hit? then Some(Advance(o, e.now, e.window)) else None;
      RunKey(o', evs[1..], k)
  }

  /**
   * Keys are isolated: what a key holds after any interleaving of hits (each
   * under its own window), resets and evictions on any keys is determined by
   * its own record and the events on that key alone.
   */
  lemma {:induction false} KeyIsolation<K(!new)>(m: map<K, Record>, evs: seq<Event<K>>, k: K)
    ensures Lookup(Run(m, evs), k) == RunKey(Lookup(m, k), evs, k)
    decreases |evs|
  {
    if evs != [] {
      var m' := Apply(m, evs[0]);
      KeyIsolation(m', evs[1..], k);
    }
  }

  /** Events that all concern other keys leave a key's record as it was. */
  lemma {:induction false} UntouchedKeyKeepsRecord<K(!new)>(m: map<K, Record>, evs: seq<Event<K>>, k: K)
    requires forall i :: 0 <= i < |evs| ==> evs[i].key != k
    ensures Lookup(Run(m, evs), k) == Lookup(m, k)
    decreases |evs|
  {
    if evs != [] {
      UntouchedKeyKeepsRecord(Apply(m, evs[0]), evs[1..], k);
    }
  }

  /**
   * Every stored record has counted at least one hit and began no later than
   * `now`, however many events ran, as long as no hit came later than `now`.
   */
  lemma {:induction false} RunKeepsWellFormed<K(!new)>(m: map<K, Record>, evs: seq<Event<K>>, now: int)
    requires WellFormed(m, now)
    requires forall i :: 0 <= i < |evs| && evs[i].Hit? ==> evs[i].now <= now
    ensures WellFormed(Run(m, evs), now)
    decreases |evs|
  {
    if evs != [] {
      ApplyKeepsWellFormed(m, evs[0], now);
      RunKeepsWellFormed(Apply(m, evs[0]), evs[1..], now);
    }
  }
}

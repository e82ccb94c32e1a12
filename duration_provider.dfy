/**
 * `DefaultDurationProvider`: a stopwatch per key. `start` stores the current
 * reading of the monotonic clock under the key; `end` removes it and
 * reports the time since. The clock reading is an input of each call.
 */
module DurationProvider {
  import opened Wrappers

  /** `Long.MAX_VALUE`. */
  const LongMax: int := 0x7FFF_FFFF_FFFF_FFFF

  /** A reading of `SystemClock.elapsedRealtime()`: milliseconds since boot, a non-negative `Long`. */
  type ElapsedRealtime = t: int | 0 <= t <= LongMax

  class DefaultDurationProvider {
    /** The start time of every running stopwatch. */
    var store: map<string, ElapsedRealtime>

    constructor ()
      ensures store == map[]
    {
      store := map[];
    }

    /** `start(key)` at clock reading `now`: a running stopwatch for `key` is restarted. */
    method Start(key: string, now: ElapsedRealtime)
      modifies this
      ensures store == old(store)[key := now]
    {
      store := store[key := now];
    }

    /**
     * `end(key)` at clock reading `now`: null when no stopwatch runs for
     * `key`; otherwise the elapsed time, and the stopwatch is removed. Both
     * readings are non-negative `Long`s, so the subtraction cannot overflow.
     */
    method End(key: string, now: ElapsedRealtime) returns (elapsed: Option<int>)
      modifies this
      ensures key !in old(store) ==> elapsed == None && store == old(store)
      ensures key in old(store) ==> elapsed == Some(now - old(store)[key]) && store == old(store) - {key}
      ensures elapsed.Some? ==> -LongMax <= elapsed.value <= LongMax
    {
      if key !in store {
        return None;
      }
      var startTime := store[key];
      store := store - {key};
      elapsed := Some(now - startTime);
    }
  }

  /** `end(k)` with no prior `start(k)` returns null and changes nothing. */
  method EndWithoutStart(p: DefaultDurationProvider, key: string, now: ElapsedRealtime)
    returns (elapsed: Option<int>)
    requires key !in p.store
    modifies p
    ensures elapsed == None && p.store == old(p.store)
  {
    elapsed := p.End(key, now);
  }

  /** `start(k)` at `t0` then `end(k)` at `t1` gives `t1 - t0`, which is not negative on a monotonic clock. */
  method EndAfterStart(p: DefaultDurationProvider, key: string, t0: ElapsedRealtime, t1: ElapsedRealtime)
    returns (elapsed: Option<int>)
    modifies p
    ensures elapsed == Some(t1 - t0)
    ensures t0 <= t1 ==> elapsed.value >= 0
    ensures p.store == old(p.store) - {key}
  {
    p.Start(key, t0);
    elapsed := p.End(key, t1);
  }

  /** `end` removes the key, so a second `end(k)` right after returns null. */
  method SecondEndIsNull(p: DefaultDurationProvider, key: string, t1: ElapsedRealtime, t2: ElapsedRealtime)
    returns (first: Option<int>, second: Option<int>)
    modifies p
    ensures first.Some? <==> key in old(p.store)
    ensures second == None
    ensures p.store == old(p.store) - {key}
  {
    first := p.End(key, t1);
    second := p.End(key, t2);
  }

  /** A repeated `start(k)` overwrites the earlier start time. */
  method RestartOverwrites(p: DefaultDurationProvider, key: string,
                           t0: ElapsedRealtime, t1: ElapsedRealtime, t2: ElapsedRealtime)
    returns (elapsed: Option<int>)
    modifies p
    ensures elapsed == Some(t2 - t1)
  {
    p.Start(key, t0);
    p.Start(key, t1);
    elapsed := p.End(key, t2);
  }

  /** `start(k)` and `end(k)` leave every other key's entry as it was. */
  method OtherKeysUnchanged(p: DefaultDurationProvider, key: string, other: string,
                            t0: ElapsedRealtime, t1: ElapsedRealtime)
    requires other != key
    modifies p
    ensures other in p.store <==> other in old(p.store)
    ensures other in p.store ==> p.store[other] == old(p.store)[other]
  {
    p.Start(key, t0);
    assert other in p.store <==> other in old(p.store);
    var _ := p.End(key, t1);
  }
}

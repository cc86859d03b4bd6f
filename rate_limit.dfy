/**
 * The fixed-window rate limiter and its in-memory counter store.
 *
 * A check at time `now` (whole seconds) with window length `per` names the
 * end of the current window, `reset`, and counts the call under the key
 * `keyPrefix + str(reset)`. Every call in one window hits the same key; the
 * first call of the next window hits a key no earlier call used, so the
 * count starts again at 1.
 */
module RateLimiting {
  import opened Wrappers
  import opened Decimal

  /** Seconds the store keeps a window's counter after the window ends. */
  const ExpirationWindow: nat := 10

  // ---------------------------------------------------------------------
  // Window arithmetic

  /** End of the window holding `now`: the least multiple of `per` above `now`. */
  function Reset(now: nat, per: nat): (reset: nat)
    requires per > 0
    ensures reset % per == 0
    ensures now < reset <= now + per
  {
    var q := now / per;
    MultipleHasNoRemainder(q + 1, per);
    assert q * per + per == (q + 1) * per;
    q * per + per
  }

  lemma MultipleHasNoRemainder(k: nat, per: nat)
    requires per > 0
    ensures (k * per) % per == 0
  {
    var a := k * per;
    var d := k - a / per;
    assert a == per * (a / per) + a % per;
    assert per * d == a % per;
  }

  /** Counter key of the window ending at `reset`. */
  function WindowKey(keyPrefix: string, reset: nat): (key: string)
    ensures |key| > |keyPrefix| && key[..|keyPrefix|] == keyPrefix
    ensures key[|keyPrefix|..] == NatToString(reset)
  {
    keyPrefix + NatToString(reset)
  }

  /** Two checks with one prefix share a key exactly when they fall in the same window. */
  lemma SameKeyIffSameWindow(keyPrefix: string, per: nat, now1: nat, now2: nat)
    requires per > 0
    ensures WindowKey(keyPrefix, Reset(now1, per)) == WindowKey(keyPrefix, Reset(now2, per))
            <==> now1 / per == now2 / per
  {
    var r1, r2 := Reset(now1, per), Reset(now2, per);
    if WindowKey(keyPrefix, r1) == WindowKey(keyPrefix, r2) {
      assert NatToString(r1) == NatToString(r2) by {
        assert NatToString(r1) == WindowKey(keyPrefix, r1)[|keyPrefix|..];
      }
      NatToStringInjective(r1, r2);
      WindowStartDeterminesWindow(now1 / per, now2 / per, per);
    }
  }

  lemma WindowStartDeterminesWindow(w1: nat, w2: nat, per: nat)
    requires per > 0
    requires w1 * per == w2 * per
    ensures w1 == w2
  {
  }

  /** `min(count, limit)`: the count as reported, never above the limit. */
  function Capped(count: int, limit: int): (current: int)
    ensures current <= count && current <= limit
    ensures current == count || current == limit
  {
    if count < limit then count else limit
  }

  // ---------------------------------------------------------------------
  // Counter store, as values

  /** The count stored at `key`; an absent key reads as 0. */
  function CountOf(v: map<string, nat>, key: string): nat {
    if key in v then v[key] else 0
  }

  /** The store after one `incr(key)`. */
  function Increment(v: map<string, nat>, key: string): (w: map<string, nat>)
    ensures w.Keys == v.Keys + {key}
    ensures CountOf(w, key) == CountOf(v, key) + 1
    ensures forall k :: k != key ==> CountOf(w, k) == CountOf(v, k)
  {
    v[key := CountOf(v, key) + 1]
  }

  /** The store after one rate-limit check for each time in `nows`, in order. */
  function Run(v: map<string, nat>, keyPrefix: string, per: nat, nows: seq<nat>): map<string, nat>
    requires per > 0
    decreases |nows|
  {
    if nows == [] then v
    else Run(Increment(v, WindowKey(keyPrefix, Reset(nows[0], per))), keyPrefix, per, nows[1..])
  }

  /** Checks in the window of `now` each add exactly one to that window's counter. */
  lemma {:induction false} RunCountsSameWindow(
    v: map<string, nat>, keyPrefix: string, per: nat, nows: seq<nat>, now: nat)
    requires per > 0
    requires forall i :: 0 <= i < |nows| ==> nows[i] / per == now / per
    ensures CountOf(Run(v, keyPrefix, per, nows), WindowKey(keyPrefix, Reset(now, per)))
            == CountOf(v, WindowKey(keyPrefix, Reset(now, per))) + |nows|
    decreases |nows|
  {
    if nows != [] {
      var key := WindowKey(keyPrefix, Reset(now, per));
      assert WindowKey(keyPrefix, Reset(nows[0], per)) == key;
      RunCountsSameWindow(Increment(v, key), keyPrefix, per, nows[1..], now);
    }
  }

  /** Checks in other windows leave the counter of the window of `now` alone. */
  lemma {:induction false} RunSkipsOtherWindows(
    v: map<string, nat>, keyPrefix: string, per: nat, nows: seq<nat>, now: nat)
    requires per > 0
    requires forall i :: 0 <= i < |nows| ==> nows[i] / per != now / per
    ensures CountOf(Run(v, keyPrefix, per, nows), WindowKey(keyPrefix, Reset(now, per)))
            == CountOf(v, WindowKey(keyPrefix, Reset(now, per)))
    decreases |nows|
  {
    if nows != [] {
      var key := WindowKey(keyPrefix, Reset(now, per));
      var first := WindowKey(keyPrefix, Reset(nows[0], per));
      SameKeyIffSameWindow(keyPrefix, per, nows[0], now);
      assert first != key;
      RunSkipsOtherWindows(Increment(v, first), keyPrefix, per, nows[1..], now);
    }
  }

  /**
   * The N-th check of a window (its key unused before, and `earlier` the
   * N-1 checks before it in the same window) reports `min(N, limit)` and is
   * over the limit exactly when `N >= limit`.
   */
  lemma NthCheckInWindow(
    v: map<string, nat>, keyPrefix: string, limit: int, per: nat, earlier: seq<nat>, now: nat)
    requires per > 0
    requires CountOf(v, WindowKey(keyPrefix, Reset(now, per))) == 0
    requires forall i :: 0 <= i < |earlier| ==> earlier[i] / per == now / per
    ensures var key := WindowKey(keyPrefix, Reset(now, per));
            var current := Capped(CountOf(Increment(Run(v, keyPrefix, per, earlier), key), key), limit);
            && current == Capped(|earlier| + 1, limit)
            && (limit >= 1 ==> 1 <= current <= limit)
            && (current >= limit <==> |earlier| + 1 >= limit)
            && (current >= limit <==> limit - current <= 0)
  {
    RunCountsSameWindow(v, keyPrefix, per, earlier, now);
  }

  /**
   * Window rollover: after any number of checks in earlier windows, the first
   * check of a new window counts 1, whatever the earlier windows counted.
   */
  lemma FirstCheckOfNewWindow(
    v: map<string, nat>, keyPrefix: string, per: nat, history: seq<nat>, now: nat)
    requires per > 0
    requires CountOf(v, WindowKey(keyPrefix, Reset(now, per))) == 0
    requires forall i :: 0 <= i < |history| ==> history[i] / per < now / per
    ensures var key := WindowKey(keyPrefix, Reset(now, per));
            CountOf(Increment(Run(v, keyPrefix, per, history), key), key) == 1
  {
    RunSkipsOtherWindows(v, keyPrefix, per, history, now);
  }

  // ---------------------------------------------------------------------
  // The in-memory store

  /** Redis double: a key -> count dictionary and the last key incremented. */
  class FakeRedis {
    var v: map<string, nat>
    var lastKey: Option<string>

    /** Every stored count is at least 1, and the last key is stored. */
    ghost predicate Valid()
      reads this
    {
      && (forall k :: k in v ==> v[k] >= 1)
      && (lastKey.Some? ==> lastKey.value in v)
    }

    constructor ()
      ensures Valid()
      ensures v == map[] && lastKey == None
    {
      v := map[];
      lastKey := None;
    }

    /** The pipeline is the store itself. */
    method Pipeline() returns (p: FakeRedis)
      ensures p == this
    {
      p := this;
    }

    /** Create `key` at 0 if absent, add one, and remember it as the last key. */
    method Incr(key: string)
      requires Valid()
      modifies this
      ensures Valid()
      ensures v == Increment(old(v), key)
      ensures lastKey == Some(key)
    {
      if key !in v {
        v := v[key := 0];
      }
      v := v[key := v[key] + 1];
      lastKey := Some(key);
    }

    /** Expiry is not simulated: nothing changes. */
    method ExpireAt(key: string, expTime: int)
      ensures unchanged(this)
    {
    }

    /**
     * The one-element reply list holding the count of the last key
     * incremented; `None` stands for the KeyError raised when nothing was
     * incremented yet.
     */
    method Execute() returns (reply: Option<seq<nat>>)
      requires Valid()
      ensures reply.Some? <==> lastKey.Some?
      ensures lastKey.Some? ==> reply == Some([CountOf(v, lastKey.value)]) && reply.value[0] >= 1
    {
      match lastKey
      case None =>
        reply := None;
      case Some(k) =>
        reply := Some([v[k]]);
    }
  }

  // ---------------------------------------------------------------------
  // The limiter

  /** One rate-limit check; built once per request and never changed afterwards. */
  class RateLimit {
    var reset: nat
    var key: string
    var limit: int
    var per: nat
    var current: int

    /** Window end is a positive multiple of `per`; `current` is some count >= 1 capped at `limit`. */
    ghost predicate Valid()
      reads this
    {
      && per > 0
      && reset % per == 0 && reset >= per
      && current <= limit
      && (current < limit ==> current >= 1)
    }

    /**
     * Computes the window and its key from `now`, performs exactly one
     * increment (and a no-op expiry) on that key through the store's
     * pipeline, and caps the resulting count at `limit`.
     */
    constructor (keyPrefix: string, limit: int, per: nat, now: nat, redis: FakeRedis)
      requires per > 0
      requires redis.Valid()
      modifies redis
      ensures Valid() && redis.Valid()
      ensures reset == Reset(now, per) && now < reset <= now + per
      ensures key == WindowKey(keyPrefix, reset)
      ensures this.limit == limit && this.per == per
      ensures redis.v == Increment(old(redis.v), key)
      ensures redis.lastKey == Some(key)
      ensures current == Capped(CountOf(old(redis.v), key) + 1, limit)
    {
      var r := Reset(now, per);
      var k := WindowKey(keyPrefix, r);
      reset := r;
      key := k;
      this.limit := limit;
      this.per := per;
      var p := redis.Pipeline();
      p.Incr(k);
      p.ExpireAt(k, r + ExpirationWindow);
      var reply := p.Execute();
      current := Capped(reply.value[0], limit);
    }

    /** Calls left in this window: never negative, and below `limit` when `limit >= 1`. */
    function Remaining(): (r: int)
      reads this
      requires Valid()
      ensures r >= 0
      ensures limit >= 1 ==> r <= limit - 1
      ensures r == 0 <==> current == limit
    {
      limit - current
    }

    /** Over the limit: the capped count has reached `limit`, that is, nothing remains. */
    predicate OverLimit()
      reads this
      requires Valid()
      ensures OverLimit() <==> Remaining() == 0
    {
      current >= limit
    }
  }
}

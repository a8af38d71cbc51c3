/** The fixed-window rate limiter, and why pruning its memory changes no answer (api/internal/ratelimit/limiter.go). */
module RateLimit {
  import opened Common

  type Key = string

  const PRUNE_THRESHOLD := 1024

  datatype Window = Window(count: nat, resetAt: nat)

  type WindowMap = map<Key, Window>

  /** One attempt for a key. */
  datatype Call = Call(key: Key, now: nat)

  ghost predicate Chronological(calls: seq<Call>) {
    forall i, j :: 0 <= i < j < |calls| ==> calls[i].now <= calls[j].now
  }

  // ---------------------------------------------------------------- specification

  /** The window the attempt falls into: the current one, or a new one if there is none or it is over. */
  function WindowFor(windows: WindowMap, call: Call, size: nat): Window {
    if call.key in windows && call.now < windows[call.key].resetAt then windows[call.key]
    else Window(0, call.now + size)
  }

  function Counted(windows: WindowMap, call: Call, size: nat): WindowMap {
    var w := WindowFor(windows, call, size);
    windows[call.key := w.(count := w.count + 1)]
  }

  /** Opening a window if needed, then counting in it. */
  lemma CountedInTwoSteps(windows: WindowMap, call: Call, size: nat)
    ensures var ready := if call.key !in windows || call.now >= windows[call.key].resetAt
                          then windows[call.key := Window(0, call.now + size)] else windows;
      && ready[call.key := ready[call.key].(count := ready[call.key].count + 1)] == Counted(windows, call, size)
      && ready[call.key].count == WindowFor(windows, call, size).count
  {
  }

  function Pruned(windows: WindowMap, now: nat): WindowMap {
    map k | k in windows && now < windows[k].resetAt :: windows[k]
  }

  /** The limiter without pruning, after all the calls. */
  function Unpruned(calls: seq<Call>, size: nat): WindowMap {
    if calls == [] then map[] else Counted(Unpruned(calls[..|calls| - 1], size), calls[|calls| - 1], size)
  }

  /** The count each call gets when nothing is ever pruned. */
  function CountOf(calls: seq<Call>, size: nat): nat
    requires calls != []
  {
    WindowFor(Unpruned(calls[..|calls| - 1], size), calls[|calls| - 1], size).count + 1
  }

  predicate Passes(calls: seq<Call>, size: nat, limit: int)
    requires calls != []
  {
    limit <= 0 || CountOf(calls, size) <= limit
  }

  // ---------------------------------------------------------------- pruning is invisible

  /** p holds what u holds, but for windows that are over. */
  ghost predicate SameUntilOver(p: WindowMap, u: WindowMap, now: nat) {
    && (forall k :: k in p ==> k in u && p[k] == u[k])
    && (forall k :: k in u && k !in p ==> u[k].resetAt <= now)
  }

  /** Pruning or just waiting keeps the two alike. */
  lemma PruningIsInvisible(p: WindowMap, u: WindowMap, then_: nat, now: nat)
    requires SameUntilOver(p, u, then_) && then_ <= now
    ensures SameUntilOver(Pruned(p, now), u, now) && SameUntilOver(p, u, now)
  {
  }

  /** So both count the next call alike, and stay alike. */
  lemma NextCallCountsAlike(p: WindowMap, calls: seq<Call>, call: Call, size: nat)
    requires Chronological(calls) && (calls != [] ==> calls[|calls| - 1].now <= call.now)
    requires SameUntilOver(p, Unpruned(calls, size), call.now)
    ensures Chronological(calls + [call])
    ensures SameUntilOver(Counted(p, call, size), Unpruned(calls + [call], size), call.now)
    ensures WindowFor(p, call, size).count + 1 == CountOf(calls + [call], size)
  {
    assert (calls + [call])[..|calls|] == calls;
  }

  // ---------------------------------------------------------------- how much passes

  /** How many of the calls for a key were let through at times in [from, to). */
  function PassedIn(calls: seq<Call>, size: nat, limit: int, key: Key, from: int, to: int): nat {
    if calls == [] then 0
    else
      var last := calls[|calls| - 1];
      PassedIn(calls[..|calls| - 1], size, limit, key, from, to) +
      if last.key == key && from <= last.now < to && Passes(calls, size, limit) then 1 else 0
  }

  lemma {:induction false} NarrowerPassesLess(calls: seq<Call>, size: nat, limit: int, key: Key, a: int, b: int, x: int,
                                              y: int)
    requires a <= x && y <= b
    ensures PassedIn(calls, size, limit, key, x, y) <= PassedIn(calls, size, limit, key, a, b)
  {
    if calls != [] { NarrowerPassesLess(calls[..|calls| - 1], size, limit, key, a, b, x, y); }
  }

  lemma {:induction false} SplitInterval(calls: seq<Call>, size: nat, limit: int, key: Key, a: int, b: int, d: int)
    requires a <= b <= d
    ensures PassedIn(calls, size, limit, key, a, d)
         == PassedIn(calls, size, limit, key, a, b) + PassedIn(calls, size, limit, key, b, d)
  {
    if calls != [] { SplitInterval(calls[..|calls| - 1], size, limit, key, a, b, d); }
  }

  /** No call of a key in an interval, no passed call. */
  lemma {:induction false} NoCallNoPass(calls: seq<Call>, size: nat, limit: int, key: Key, a: int, b: int)
    requires forall i :: 0 <= i < |calls| ==> calls[i].key != key || !(a <= calls[i].now < b)
    ensures PassedIn(calls, size, limit, key, a, b) == 0
  {
    if calls != [] { NoCallNoPass(calls[..|calls| - 1], size, limit, key, a, b); }
  }

  /** All calls before end; those of one key lie before the end of that key's latest window. */
  ghost predicate Before(calls: seq<Call>, size: nat, key: Key, end: int) {
    var windows := Unpruned(calls, size);
    forall i :: 0 <= i < |calls| ==>
      calls[i].now < end && (calls[i].key == key ==> key in windows && calls[i].now < windows[key].resetAt)
  }

  lemma {:induction false} CallsAreBefore(calls: seq<Call>, size: nat, key: Key, end: int)
    requires size > 0 && Chronological(calls) && forall i :: 0 <= i < |calls| ==> calls[i].now < end
    ensures Before(calls, size, key, end)
  {
    if calls != [] {
      var init, last := calls[..|calls| - 1], calls[|calls| - 1];
      CallsAreBefore(init, size, key, end);
      assert forall i :: 0 <= i < |init| ==> calls[i] == init[i] && calls[i].now <= last.now;
    }
  }

  /**
   * The latest window of a key, opened by a call: at most limit calls passed since, at most limit - 1 of
   * them after that opening moment, and at most limit - 1 in the window length before it.
   */
  ghost predicate WindowBounds(calls: seq<Call>, size: nat, limit: int, key: Key, end: int) {
    var windows := Unpruned(calls, size);
    key in windows ==>
      var w := windows[key];
      var start := w.resetAt - size;
      && w.count >= 1
      && PassedIn(calls, size, limit, key, start, end) <= Min(w.count, limit)
      && PassedIn(calls, size, limit, key, start + 1, end) <= Min(w.count, limit) - 1
      && PassedIn(calls, size, limit, key, start - size + 1, start) <= limit - 1
  }

  lemma {:induction false} WindowsAreBounded(calls: seq<Call>, size: nat, limit: int, key: Key, end: int)
    requires size > 0 && limit > 0 && Chronological(calls) && forall i :: 0 <= i < |calls| ==> calls[i].now < end
    ensures WindowBounds(calls, size, limit, key, end)
  {
    if calls != [] {
      var init, last := calls[..|calls| - 1], calls[|calls| - 1];
      WindowsAreBounded(init, size, limit, key, end);
      CallsAreBefore(init, size, key, end);
      var was := Unpruned(init, size);
      if key in Unpruned(calls, size) { LatestWindowHasOpened(calls, size, key); }
      if last.key == key && !(key in was && last.now < was[key].resetAt) {
        hide Unpruned, Before;
        NewWindowIsBounded(init, last, size, limit, key, end);
        assert calls == init + [last];
      }
    }
  }

  /** A call that opens a window: nothing passed since, and little in the window length before. */
  lemma NewWindowIsBounded(init: seq<Call>, last: Call, size: nat, limit: int, key: Key, end: int)
    requires size > 0 && limit > 0 && last.key == key && last.now < end
    requires WindowBounds(init, size, limit, key, end) && Before(init, size, key, end)
    requires key in Unpruned(init, size) ==> last.now >= Unpruned(init, size)[key].resetAt
    requires forall i :: 0 <= i < |init| ==> init[i].now <= last.now
    ensures WindowBounds(init + [last], size, limit, key, end)
  {
    hide PassedIn, Unpruned;
    var was, start := Unpruned(init, size), last.now;
    NewWindow(init, last, size);
    OneMorePasses(init, last, size, limit, key, start, end);
    OneMorePasses(init, last, size, limit, key, start + 1, end);
    OneMorePasses(init, last, size, limit, key, start - size + 1, start);
    NoCallNoPass(init, size, limit, key, start, end);
    NoCallNoPass(init, size, limit, key, start + 1, end);
    if key in was {
      NarrowerPassesLess(init, size, limit, key, was[key].resetAt - size + 1, end, start - size + 1, start);
    } else {
      NoCallNoPass(init, size, limit, key, start - size + 1, start);
    }
    hide Before;
  }

  lemma NewWindow(init: seq<Call>, last: Call, size: nat)
    requires last.key in Unpruned(init, size) ==> last.now >= Unpruned(init, size)[last.key].resetAt
    ensures last.key in Unpruned(init + [last], size)
    ensures Unpruned(init + [last], size)[last.key] == Window(1, last.now + size)
  {
    assert (init + [last])[..|init|] == init;
  }

  lemma OneMorePasses(init: seq<Call>, last: Call, size: nat, limit: int, key: Key, from: int, to: int)
    ensures PassedIn(init + [last], size, limit, key, from, to) <=
      PassedIn(init, size, limit, key, from, to) + if last.key == key && from <= last.now < to then 1 else 0
  {
    assert (init + [last])[..|init|] == init;
    hide Passes;
  }

  /** Within the window a key is in, at most limit of its calls are let through. */
  lemma AtMostLimitPerWindow(calls: seq<Call>, size: nat, limit: int, key: Key, end: int)
    requires size > 0 && limit > 0 && Chronological(calls) && forall i :: 0 <= i < |calls| ==> calls[i].now < end
    requires key in Unpruned(calls, size)
    ensures PassedIn(calls, size, limit, key, Unpruned(calls, size)[key].resetAt - size, end) <= limit
  {
    WindowsAreBounded(calls, size, limit, key, end);
  }

  /** In any half-open interval of one window length fewer than twice the limit are let through. */
  lemma {:induction false} FewerThanTwiceTheLimit(calls: seq<Call>, size: nat, limit: int, key: Key, t: int)
    requires size > 0 && limit > 0 && Chronological(calls)
    ensures PassedIn(calls, size, limit, key, t, t + size) <= 2 * limit - 1
  {
    if calls != [] {
      var init, last := calls[..|calls| - 1], calls[|calls| - 1];
      if last.key == key && t <= last.now < t + size {
        var end := t + size;
        WindowsAreBounded(calls, size, limit, key, end);
        var start := Unpruned(calls, size)[key].resetAt - size;
        CallsAreBefore(calls, size, key, end);
        LatestWindowHasOpened(calls, size, key);
        if t < start {
          SplitInterval(calls, size, limit, key, t, start, end);
          NarrowerPassesLess(calls, size, limit, key, start - size + 1, start, t, start);
        } else {
          NarrowerPassesLess(calls, size, limit, key, start, end, t, end);
        }
      } else {
        FewerThanTwiceTheLimit(init, size, limit, key, t);
      }
    }
  }

  lemma {:induction false} LatestWindowHasOpened(calls: seq<Call>, size: nat, key: Key)
    requires calls != [] && Chronological(calls) && key in Unpruned(calls, size)
    ensures Unpruned(calls, size)[key].resetAt - size <= calls[|calls| - 1].now
  {
    var init, last := calls[..|calls| - 1], calls[|calls| - 1];
    if key in Unpruned(init, size) && !(last.key == key && last.now >= Unpruned(init, size)[key].resetAt) {
      LatestWindowHasOpened(init, size, key);
    }
  }

  // ---------------------------------------------------------------- the bound is reached

  function Repeat(call: Call, n: nat): (calls: seq<Call>)
    ensures |calls| == n && forall i :: 0 <= i < n ==> calls[i] == call
  {
    seq(n, _ => call)
  }

  /** n more calls in a window with room for all of them: all pass. */
  lemma {:induction false} RepeatedCallsPass(calls: seq<Call>, call: Call, n: nat, size: nat, limit: int, from: int,
                                             to: int)
    requires limit > 0 && from <= call.now < to && size > 0
    requires WindowFor(Unpruned(calls, size), call, size).count + n <= limit
    ensures WindowFor(Unpruned(calls + Repeat(call, n), size), call, size).count
         == WindowFor(Unpruned(calls, size), call, size).count + n
    ensures n > 0 ==> call.key in Unpruned(calls + Repeat(call, n), size)
    ensures n > 0 ==>
      Unpruned(calls + Repeat(call, n), size)[call.key].resetAt == WindowFor(Unpruned(calls, size), call, size).resetAt
    ensures PassedIn(calls + Repeat(call, n), size, limit, call.key, from, to)
         == PassedIn(calls, size, limit, call.key, from, to) + n
  {
    if n == 0 {
      assert calls + Repeat(call, n) == calls;
    } else {
      var all := calls + Repeat(call, n);
      assert all[..|all| - 1] == calls + Repeat(call, n - 1);
      RepeatedCallsPass(calls, call, n - 1, size, limit, from, to);
    }
  }

  /** One early call, limit - 1 at the end of its window, limit at the start of the next. */
  function Overload(key: Key, size: nat, limit: nat): seq<Call>
    requires size > 0 && limit > 0
  {
    [Call(key, 0)] + Repeat(Call(key, size - 1), limit - 1) + Repeat(Call(key, size), limit)
  }

  lemma OverloadIsChronological(key: Key, size: nat, limit: nat)
    requires size > 0 && limit > 0
    ensures Chronological(Overload(key, size, limit))
  {
    var calls := Overload(key, size, limit);
    assert forall i :: 0 <= i < |calls| ==> calls[i].now == if i == 0 then 0 else if i < limit then size - 1 else size;
  }

  lemma LateCallsPass(key: Key, size: nat, limit: nat)
    requires size > 1 && limit > 0
    ensures var early := [Call(key, 0)] + Repeat(Call(key, size - 1), limit - 1);
      && key in Unpruned(early, size) && Unpruned(early, size)[key].resetAt == size
      && PassedIn(early, size, limit, key, size - 1, size - 1 + size) == limit - 1
  {
    var first := [Call(key, 0)];
    assert first[..0] == [];
    assert Unpruned(first, size) == map[key := Window(1, size)];
    assert PassedIn(first, size, limit, key, size - 1, size - 1 + size) == 0;
    RepeatedCallsPass(first, Call(key, size - 1), limit - 1, size, limit, size - 1, size - 1 + size);
    if limit == 1 { assert first + Repeat(Call(key, size - 1), limit - 1) == first; }
  }

  /** The bound cannot be improved. */
  lemma TheBoundIsReached(key: Key, size: nat, limit: nat)
    requires size > 1 && limit > 0
    ensures Chronological(Overload(key, size, limit))
    ensures PassedIn(Overload(key, size, limit), size, limit, key, size - 1, size - 1 + size) == 2 * limit - 1
  {
    OverloadIsChronological(key, size, limit);
    LateCallsPass(key, size, limit);
    hide Repeat, PassedIn, Unpruned;
    RepeatedCallsPass([Call(key, 0)] + Repeat(Call(key, size - 1), limit - 1), Call(key, size), limit, size, limit,
                      size - 1, size - 1 + size);
  }

  // ---------------------------------------------------------------- the limiter

  ghost function Latest(calls: seq<Call>): nat {
    if calls == [] then 0 else calls[|calls| - 1].now
  }

  /** The counters in Redis: a key lives until its expiry, which is set when it is first counted. */
  class RedisCounters {
    const size: nat
    var values: map<Key, nat>
    var expiry: map<Key, nat>
    ghost var calls: seq<Call>

    constructor (size: nat)
      ensures Valid() && calls == [] && this.size == size
    {
      this.size := size;
      values, expiry := map[], map[];
      calls := [];
    }

    ghost function Windows(): WindowMap
      reads this
      requires values.Keys == expiry.Keys
    {
      map k | k in values :: Window(values[k], expiry[k])
    }

    ghost predicate Valid()
      reads this
    {
      && values.Keys == expiry.Keys
      && Chronological(calls) && SameUntilOver(Windows(), Unpruned(calls, size), Latest(calls))
    }

    /** INCR, then EXPIRE NX, on a key that is gone if its time is over. */
    method CountInRedis(key: Key, now: nat) returns (count: nat)
      requires Valid() && now >= Latest(calls)
      modifies this
      ensures Valid() && calls == old(calls) + [Call(key, now)]
      ensures count == CountOf(calls, size)
    {
      PruningIsInvisible(Windows(), Unpruned(calls, size), Latest(calls), now);
      NextCallCountsAlike(Windows(), calls, Call(key, now), size);
      hide Unpruned, SameUntilOver, Chronological, CountOf;
      count := Increment(key, now);
      calls := calls + [Call(key, now)];
    }

    method Increment(key: Key, now: nat) returns (count: nat)
      requires values.Keys == expiry.Keys
      modifies this`values, this`expiry
      ensures values.Keys == expiry.Keys && Windows() == Counted(old(Windows()), Call(key, now), size)
      ensures count == WindowFor(old(Windows()), Call(key, now), size).count + 1
    {
      if key in expiry && now >= expiry[key] {
        values, expiry := values - {key}, expiry - {key};
      }
      values := values[key := (if key in values then values[key] else 0) + 1];
      if key !in expiry {
        expiry := expiry[key := now + size];
      }
      count := values[key];
      assert Windows() == Counted(old(Windows()), Call(key, now), size);
    }
  }

  /** Counts in Redis while it can be reached, otherwise in memory; without a client always in memory. */
  class Limiter {
    const limit: int
    const size: nat
    const redis: RedisCounters?
    var windows: WindowMap
    ghost var calls: seq<Call>

    constructor (limit: int, size: nat, redis: RedisCounters?)
      requires redis != null ==> redis.size == size
      ensures Valid() && calls == [] && this.limit == limit && this.size == size && this.redis == redis
    {
      this.limit, this.size, this.redis := limit, size, redis;
      windows := map[];
      calls := [];
    }

    /** The windows are those of the limiter that never prunes, but for some that are over. */
    ghost predicate Valid()
      reads this
    {
      && Chronological(calls) && SameUntilOver(windows, Unpruned(calls, size), Latest(calls))
      && (redis != null ==> redis.size == size)
    }

    predicate UsesRedis(reachable: bool) {
      limit > 0 && redis != null && reachable
    }

    /**
     * Counts one attempt, in Redis or in memory; a disabled limiter counts nothing. Each of the two counters lets
     * through what a limiter that never forgets would, given the calls that reached that counter.
     */
    method Allow(key: Key, now: nat, reachable: bool) returns (ok: bool)
      requires Valid() && now >= Latest(calls)
      requires redis != null ==> redis.Valid() && now >= Latest(redis.calls)
      modifies this, redis
      ensures Valid() && (redis != null ==> redis.Valid())
      ensures UsesRedis(reachable) ==>
        && calls == old(calls) && redis.calls == old(redis.calls) + [Call(key, now)]
        && ok == Passes(redis.calls, size, limit)
      ensures !UsesRedis(reachable) ==>
        && calls == (if limit <= 0 then old(calls) else old(calls) + [Call(key, now)])
        && (redis != null ==> redis.calls == old(redis.calls))
        && ok == Passes(old(calls) + [Call(key, now)], size, limit)
    {
      hide SameUntilOver, Chronological, Unpruned, CountOf, RedisCounters.Valid;
      if limit <= 0 {
        return true;
      }
      var count;
      if redis != null && reachable {
        count := redis.CountInRedis(key, now);
      } else {
        count := CountInMemory(key, now);
      }
      ok := count <= limit;
    }

    method CountInMemory(key: Key, now: nat) returns (count: nat)
      requires Valid() && now >= Latest(calls)
      modifies this
      ensures Valid() && calls == old(calls) + [Call(key, now)]
      ensures count == CountOf(calls, size)
    {
      hide Pruned, Unpruned, SameUntilOver, Chronological;
      PruningIsInvisible(windows, Unpruned(calls, size), Latest(calls), now);
      if |windows| > PRUNE_THRESHOLD {
        PruneExpired(now);
      }
      NextCallCountsAlike(windows, calls, Call(key, now), size);
      hide Counted, WindowFor, CountOf;
      count := CountIn(key, now);
      calls := calls + [Call(key, now)];
    }

    method CountIn(key: Key, now: nat) returns (count: nat)
      modifies this`windows
      ensures windows == Counted(old(windows), Call(key, now), size)
      ensures count == WindowFor(old(windows), Call(key, now), size).count + 1
    {
      CountedInTwoSteps(windows, Call(key, now), size);
      if key !in windows || now >= windows[key].resetAt {
        windows := windows[key := Window(0, now + size)];
      }
      windows := windows[key := windows[key].(count := windows[key].count + 1)];
      count := windows[key].count;
    }

    method PruneExpired(now: nat)
      modifies this`windows
      ensures windows == Pruned(old(windows), now)
    {
      var keys := windows.Keys;
      while keys != {}
        invariant keys <= windows.Keys <= old(windows).Keys
        invariant forall k :: k in windows ==> windows[k] == old(windows)[k] && (k in keys || now < windows[k].resetAt)
        invariant forall k :: k in old(windows) && now < old(windows)[k].resetAt ==> k in windows
      {
        var k :| k in keys;
        keys := keys - {k};
        if now >= windows[k].resetAt {
          windows := windows - {k};
        }
      }
    }
  }
}

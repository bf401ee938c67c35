// The sliding-window rate limiter: an evicting queue per endpoint group that bounds the whole history of grants.
module RateLimiter {
  import opened Common

  datatype Limit = Limit(maxRequests: int, window: real)

  type Times = seq<real>

  // Any max + 1 consecutive grants span strictly more than the window.
  ghost predicate Spaced(log: Times, max: nat, window: real) {
    forall i | 0 <= i < |log| - max :: log[i + max] - log[i] > window
  }

  // rest is queue without its leading entries older than since, all of them.
  ghost predicate Evicted(queue: Times, rest: Times, since: real) {
    && |rest| <= |queue| && rest == queue[|queue| - |rest|..]
    && (forall i | 0 <= i < |queue| - |rest| :: queue[i] < since)
    && (rest != [] ==> rest[0] >= since)
  }

  // The queue is the part of the log not yet evicted, and everything evicted is older than the window.
  ghost predicate SuffixOf(queue: Times, log: Times, since: real) {
    && |queue| <= |log| && queue == log[|log| - |queue|..]
    && forall i | 0 <= i < |log| - |queue| :: log[i] < since
  }

  function Room(limit: Limit): nat { if limit.maxRequests > 0 then limit.maxRequests else 0 }

  // What a group's queue and log keep, as of the last time the queue was looked at.
  ghost predicate Sound(queue: Times, log: Times, looked: real, limit: Limit) {
    && Ascending(log) && (log != [] ==> log[|log| - 1] <= looked)
    && SuffixOf(queue, log, looked - limit.window)
    && |queue| <= Room(limit)
    && Spaced(log, Room(limit), limit.window)
  }

  lemma LookKeepsSound(queue: Times, rest: Times, log: Times, looked: real, now: real, limit: Limit)
    requires Sound(queue, log, looked, limit) && looked <= now && Evicted(queue, rest, now - limit.window)
    ensures Sound(rest, log, now, limit)
  {
    var k, d := |log| - |queue|, |queue| - |rest|;
    assert rest == log[k + d..];
    forall i | 0 <= i < k + d ensures log[i] < now - limit.window {
      if i >= k { assert log[i] == queue[i - k]; }
    }
  }

  // A grant with room in the queue keeps the log spaced: the entry max grants back has been evicted.
  lemma GrantKeepsSound(queue: Times, log: Times, now: real, limit: Limit)
    requires Sound(queue, log, now, limit) && |queue| < limit.maxRequests
    ensures Sound(queue + [now], log + [now], now, limit)
  {
    var log', n, max := log + [now], |log|, Room(limit);
    forall i | 0 <= i < |log'| - max ensures log'[i + max] - log'[i] > limit.window {
      if i + max < n { assert log[i + max] - log[i] > limit.window; }
    }
  }

  // Whether the queue has room at a time: fewer entries than the limit, or the limit-th newest is out of the window.
  predicate HasRoom(queue: Times, now: real, limit: Limit) {
    limit.maxRequests > 0
    && (|queue| < limit.maxRequests || queue[|queue| - limit.maxRequests] < now - limit.window)
  }

  lemma RoomAfterEviction(queue: Times, rest: Times, now: real, limit: Limit)
    requires Ascending(queue) && Evicted(queue, rest, now - limit.window)
    ensures |rest| < limit.maxRequests <==> HasRoom(queue, now, limit)
  {
    var d := |queue| - |rest|;
    if 0 < limit.maxRequests <= |queue| {
      var k := |queue| - limit.maxRequests;
      if k >= d { assert rest[0] == queue[d] <= queue[k]; }
    }
  }

  // When a wait of so many sleeps ends: the first lasts until the oldest grant leaves the window, and a millisecond at
  // least; the second, needed only when the first ended at that very moment, one millisecond more.
  function WokenAt(queue: Times, limit: Limit, arrival: real, oversleep: nat -> real, sleeps: nat): real {
    var free := if queue == [] then arrival else queue[0] + limit.window;
    if sleeps == 1 then (if free >= arrival + 0.001 then free else arrival + 0.001) + oversleep(1)
    else free + 0.001 + oversleep(2)
  }

  class EndpointRateLimiter {
    const limits: map<string, Limit>
    const defaultLimit: Limit
    var events: map<string, Times>
    ghost var log: map<string, Times>  // every grant ever made, by group
    ghost var looked: map<string, real>  // when a group's queue was last looked at

    function LimitOf(group: string): Limit { if group in limits then limits[group] else defaultLimit }

    function QueueOf(group: string): Times
      reads this
    {
      if group in events then events[group] else []
    }

    ghost function LogOf(group: string): Times
      reads this
    {
      if group in log then log[group] else []
    }

    ghost predicate Valid()
      reads this
    {
      && events.Keys == log.Keys == looked.Keys
      && forall g | g in events :: Sound(events[g], log[g], looked[g], LimitOf(g))
    }

    constructor (limits: map<string, Limit>, defaultLimit: Limit)
      ensures Valid() && events == map[] && this.limits == limits && this.defaultLimit == defaultLimit
    {
      this.limits, this.defaultLimit := limits, defaultLimit;
      events, log, looked := map[], map[], map[];
    }

    // One acquisition, holding the group's lock throughout. arrival is the clock when the lock is taken; the k-th sleep
    // lasts oversleep(k) longer than asked for. The answer is the time of the grant, or None when the limit admits no
    // request at all: the empty queue then has no oldest entry to wait for, and the call fails.
    method Acquire(group: string, arrival: real, oversleep: nat -> real) returns (granted: Option<real>, sleeps: nat)
      requires Valid() && (group in looked ==> looked[group] <= arrival) && forall k :: oversleep(k) >= 0.0
      modifies this
      ensures Valid() && sleeps <= 2
      ensures granted.None? <==> LimitOf(group).maxRequests <= 0
      ensures granted.Some? ==> granted.value >= arrival
      ensures granted.Some? ==> log == old(log)[group := old(LogOf(group)) + [granted.value]]
      ensures granted == Some(arrival) && sleeps == 0 <==> HasRoom(old(QueueOf(group)), arrival, LimitOf(group))
      ensures granted.Some? ==>
                granted.value == if sleeps == 0 then arrival
                                 else WokenAt(old(QueueOf(group)), LimitOf(group), arrival, oversleep, sleeps)
      ensures granted.None? ==> log == old(log)[group := old(LogOf(group))]
      ensures events == old(events)[group := QueueOf(group)]
    {
      var start := QueueOf(group);
      ghost var past, seen := GroupIsSound(group, arrival);
      var now, queue;
      now, queue, sleeps := WaitForRoom(start, past, seen, LimitOf(group), arrival, oversleep);
      if |queue| < LimitOf(group).maxRequests {
        GrantKeepsSound(queue, past, now, LimitOf(group));
        Store(group, queue + [now], past + [now], now);
        granted := Some(now);
      } else {
        Store(group, queue, past, now);
        granted := None;
      }
    }

    lemma GroupIsSound(group: string, arrival: real) returns (past: Times, seen: real)
      requires Valid() && (group in looked ==> looked[group] <= arrival)
      ensures past == LogOf(group) && seen <= arrival && Sound(QueueOf(group), past, seen, LimitOf(group))
    {
      past, seen := LogOf(group), if group in looked then looked[group] else arrival;
    }

    // At any time, and whatever the groups' limits, no window of a group's history holds more grants than permitted.
    lemma HistoryIsBounded(group: string, from: real)
      requires Valid()
      ensures |Within(LogOf(group), from, LimitOf(group).window)| <= Room(LimitOf(group))
    {
      if group in log { WindowHoldsAtMostMax(log[group], Room(LimitOf(group)), LimitOf(group).window, from); }
    }

    method Store(group: string, queue: Times, ghost past: Times, ghost now: real)
      requires Valid() && Sound(queue, past, now, LimitOf(group))
      modifies this
      ensures Valid()
      ensures events == old(events)[group := queue] && log == old(log)[group := past]
    {
      events, log, looked := events[group := queue], log[group := past], looked[group := now];
    }

    // Evict and sleep until the queue has room. Two sleeps always suffice: the first outlasts the oldest entry's window
    // or reaches its very end, and the second lasts at least a millisecond.
    static method WaitForRoom(
      start: Times, ghost past: Times, ghost looked: real, limit: Limit, arrival: real, oversleep: nat -> real)
      returns (now: real, queue: Times, sleeps: nat)
      requires Sound(start, past, looked, limit) && looked <= arrival && forall k :: oversleep(k) >= 0.0
      ensures now >= arrival && sleeps <= 2 && Sound(queue, past, now, limit)
      ensures |queue| < limit.maxRequests <==> limit.maxRequests > 0
      ensures limit.maxRequests > 0 ==> (sleeps == 0 && now == arrival <==> HasRoom(start, arrival, limit))
      ensures limit.maxRequests > 0 ==>
                now == if sleeps == 0 then arrival else WokenAt(start, limit, arrival, oversleep, sleeps)
    {
      now, sleeps := arrival, 0;
      ghost var seen := looked;
      queue := start;
      while true
        invariant sleeps <= 2 && seen <= now && arrival <= now && Sound(queue, past, seen, limit)
        invariant sleeps == 0 ==> now == arrival && queue == start
        invariant sleeps > 0 ==> |queue| == limit.maxRequests > 0 && !HasRoom(start, arrival, limit) && queue == start
        invariant sleeps > 0 ==> now == WokenAt(start, limit, arrival, oversleep, sleeps)
        invariant sleeps == 1 ==> now - limit.window >= queue[0]
        invariant sleeps == 2 ==> now - limit.window > queue[0]
        decreases 2 - sleeps
      {
        var kept := Look(queue, past, seen, limit, now);
        seen := now;
        if |kept| < limit.maxRequests { return now, kept, sleeps; }
        if kept == [] { return now, kept, sleeps; }
        queue := kept;
        var pause := limit.window - (now - queue[0]);
        if pause < 0.001 { pause := 0.001; }
        sleeps := sleeps + 1;
        now := now + pause + oversleep(sleeps);
      }
    }

    // Pop from the front while the front is too old.
    static method Look(queue: Times, ghost past: Times, ghost looked: real, limit: Limit, now: real)
      returns (rest: Times)
      requires Sound(queue, past, looked, limit) && looked <= now
      ensures Sound(rest, past, now, limit)
      ensures |rest| < limit.maxRequests <==> HasRoom(queue, now, limit)
      ensures |rest| == |queue| ==> rest == queue
      ensures rest != [] ==> rest[0] >= now - limit.window
    {
      rest := queue;
      while rest != [] && rest[0] < now - limit.window
        invariant |rest| <= |queue| && rest == queue[|queue| - |rest|..]
        invariant forall i | 0 <= i < |queue| - |rest| :: queue[i] < now - limit.window
      {
        rest := rest[1..];
      }
      LookKeepsSound(queue, rest, past, looked, now, limit);
      QueueIsOrdered(queue, past, looked, limit);
      RoomAfterEviction(queue, rest, now, limit);
    }
  }

  lemma QueueIsOrdered(queue: Times, log: Times, looked: real, limit: Limit)
    requires Sound(queue, log, looked, limit)
    ensures Ascending(queue)
  {
    var k := |log| - |queue|;
    forall i, j | 0 <= i <= j < |queue| ensures queue[i] <= queue[j] { assert log[k + i] <= log[k + j]; }
  }

  // ---------------------------------------------------------------------------------------------
  // What spacing means for windows.

  ghost function Within(log: Times, from: real, window: real): set<nat> {
    set i: nat | i < |log| && from <= log[i] <= from + window
  }

  lemma {:induction false} RangeSize(s: set<nat>, low: nat, size: nat)
    requires forall i | i in s :: low <= i < low + size
    ensures |s| <= size
  {
    if size == 0 {
      assert s == {};
    } else {
      RangeSize(s - {low + size - 1}, low, size - 1);
      if low + size - 1 in s { assert |s| == |s - {low + size - 1}| + 1; } else { assert s == s - {low + size - 1}; }
    }
  }

  lemma Least(s: set<nat>) returns (low: nat)
    requires s != {}
    ensures low in s && forall i | i in s :: low <= i
    decreases |s|
  {
    low :| low in s;
    if s != {low} {
      var rest := s - {low};
      assert exists i :: i in rest by { assert s == rest + {low}; }
      var least := Least(rest);
      assert forall i | i in s :: i == low || i in rest;
      if least < low { low := least; }
    }
  }

  lemma FarGrantsAreApart(log: Times, max: nat, window: real)
    requires Ascending(log) && Spaced(log, max, window)
    ensures forall i, j | 0 <= i && i + max <= j < |log| :: log[j] - log[i] > window
  {
    forall i, j | 0 <= i && i + max <= j < |log| ensures log[j] - log[i] > window {
      var k := i + max;
      assert log[k] - log[i] > window && (k == j || log[k] <= log[j]);
    }
  }

  // Every window of the limit's length holds at most the permitted number of grants, anywhere in the history.
  lemma WindowHoldsAtMostMax(log: Times, max: nat, window: real, from: real)
    requires Ascending(log) && Spaced(log, max, window)
    ensures |Within(log, from, window)| <= max
  {
    var s := Within(log, from, window);
    FarGrantsAreApart(log, max, window);
    if s != {} {
      var low := Least(s);
      RangeSize(s, low, max);
    }
  }
}

/** Sliding-window limiters: one window for a provider, and a bounded table of windows by key. */
module RateLimits {
  import opened Selection
  import opened Wrappers

  datatype Window = Window(limit: int, width: int)

  predicate ValidWindow(w: Window) {
    1 <= w.limit && 0 < w.width
  }

  // A window has a limit of at least one and a width, or does not exist.
  method MakeWindow(limit: int, width: int) returns (r: Result<Window, ()>)
    ensures r.Ok? <==> 0 < limit && 0 < width
    ensures r.Ok? ==> r.value == Window(limit, width) && ValidWindow(r.value)
  {
    if limit < 1 || width <= 0 {
      return Err(());
    }
    return Ok(Window(limit, width));
  }

  // The hits later than the cutoff, in order.
  function Recent(hits: seq<int>, cutoff: int): seq<int> {
    if hits == [] then []
    else
      var front, last := Recent(hits[..|hits| - 1], cutoff), hits[|hits| - 1];
      if cutoff < last then front + [last] else front
  }

  function Allowed(w: Window, hits: seq<int>, now: int): bool {
    |Recent(hits, now - w.width)| < w.limit
  }

  function AfterCall(w: Window, hits: seq<int>, now: int): seq<int> {
    if Allowed(w, hits, now) then Recent(hits, now - w.width) + [now] else Recent(hits, now - w.width)
  }

  /// Whole runs of one window

  // What a window that remembers `hits` remembers after calls at these times.
  function HitsAfter(w: Window, hits: seq<int>, times: seq<int>): seq<int>
    decreases |times|
  {
    if times == [] then hits else HitsAfter(w, AfterCall(w, hits, times[0]), times[1..])
  }

  // The calls let through: those before the run, and those of the run.
  function AdmittedAfter(w: Window, hits: seq<int>, admitted: seq<int>, times: seq<int>): seq<int>
    decreases |times|
  {
    if times == [] then admitted
    else
      var more := if Allowed(w, hits, times[0]) then admitted + [times[0]] else admitted;
      AdmittedAfter(w, AfterCall(w, hits, times[0]), more, times[1..])
  }

  // How many of the times fall in (lo, hi].
  function CountWithin(times: seq<int>, lo: int, hi: int): nat {
    if times == [] then 0
    else CountWithin(times[..|times| - 1], lo, hi) + (if lo < times[|times| - 1] <= hi then 1 else 0)
  }

  // The times never go back, and none is later than `now`.
  ghost predicate InOrder(times: seq<int>, now: int) {
    times == [] || (times[|times| - 1] <= now && InOrder(times[..|times| - 1], times[|times| - 1]))
  }

  // The times never go back, and none is earlier than `from`.
  ghost predicate FromOn(from: int, times: seq<int>)
    decreases |times|
  {
    times == [] || (from <= times[0] && FromOn(times[0], times[1..]))
  }

  lemma {:induction false} RecentOfRecent(hits: seq<int>, early: int, late: int)
    requires early <= late
    ensures Recent(Recent(hits, early), late) == Recent(hits, late)
  {
    if hits != [] {
      var front, last := hits[..|hits| - 1], hits[|hits| - 1];
      RecentOfRecent(front, early, late);
      RecentAppend(Recent(front, early), last, late);
    }
  }

  lemma {:induction false} RecentAppend(hits: seq<int>, last: int, cutoff: int)
    ensures Recent(hits + [last], cutoff)
         == if cutoff < last then Recent(hits, cutoff) + [last] else Recent(hits, cutoff)
  {
    assert (hits + [last])[..|hits|] == hits;
  }

  // Recent hits, when none is later than `now`, are those of the window that ends now.
  lemma {:induction false} RecentIsCount(hits: seq<int>, cutoff: int, now: int)
    requires InOrder(hits, now)
    ensures |Recent(hits, cutoff)| == CountWithin(hits, cutoff, now)
  {
    if hits != [] {
      RecentIsCount(hits[..|hits| - 1], cutoff, now);
    }
  }

  // A window that starts earlier, and ends no earlier than all the times, counts at least as many.
  lemma {:induction false} EarlierStartCountsMore(times: seq<int>, lo: int, hi: int, lo': int, hi': int)
    requires lo' <= lo && InOrder(times, hi')
    ensures CountWithin(times, lo, hi) <= CountWithin(times, lo', hi')
  {
    if times != [] {
      EarlierStartCountsMore(times[..|times| - 1], lo, hi, lo', hi');
    }
  }

  lemma {:induction false} CountAppend(times: seq<int>, last: int, lo: int, hi: int)
    ensures CountWithin(times + [last], lo, hi) == CountWithin(times, lo, hi) + (if lo < last <= hi then 1 else 0)
  {
    assert (times + [last])[..|times|] == times;
  }

  // How many of the times fall in the window that ends at `end`.
  function InWindow(w: Window, times: seq<int>, end: int): nat {
    CountWithin(times, end - w.width, end)
  }

  // No window of the given width, wherever it ends, holds more than `limit` of the times.
  ghost predicate Bounded(w: Window, times: seq<int>) {
    forall end :: InWindow(w, times, end) <= w.limit
  }

  // The hits agree with all calls let through so far about which are recent, now and later.
  ghost predicate Tracks(w: Window, hits: seq<int>, admitted: seq<int>, now: int) {
    && InOrder(admitted, now)
    && Recent(hits, now - w.width) == Recent(admitted, now - w.width)
    && Bounded(w, admitted)
  }

  // What was recent alike for an earlier call is recent alike for a later one.
  lemma RecentStaysAlike(w: Window, hits: seq<int>, admitted: seq<int>, last: int, now: int)
    requires last <= now && Recent(hits, last - w.width) == Recent(admitted, last - w.width)
    ensures Recent(hits, now - w.width) == Recent(admitted, now - w.width)
  {
    RecentOfRecent(hits, last - w.width, now - w.width);
    RecentOfRecent(admitted, last - w.width, now - w.width);
  }

  // A call is let through exactly when fewer than `limit` calls were let through in the window that ends with it.
  lemma {:induction false} AllowedIffWindowHasRoom(w: Window, hits: seq<int>, admitted: seq<int>, now: int)
    requires InOrder(admitted, now) && Recent(hits, now - w.width) == Recent(admitted, now - w.width)
    ensures Allowed(w, hits, now) <==> InWindow(w, admitted, now) < w.limit
  {
    RecentIsCount(admitted, now - w.width, now);
  }

  lemma {:induction false} AppendKeepsBound(w: Window, admitted: seq<int>, now: int)
    requires ValidWindow(w) && InOrder(admitted, now) && Bounded(w, admitted)
    requires InWindow(w, admitted, now) < w.limit
    ensures Bounded(w, admitted + [now])
  {
    forall end
      ensures InWindow(w, admitted + [now], end) <= w.limit
    {
      CountAppend(admitted, now, end - w.width, end);
      assert InWindow(w, admitted, end) <= w.limit;
      if now <= end {
        EarlierStartCountsMore(admitted, end - w.width, end, now - w.width, now);
      }
    }
  }

  lemma {:induction false} CallKeepsRecent(w: Window, hits: seq<int>, admitted: seq<int>, now: int)
    requires Recent(hits, now - w.width) == Recent(admitted, now - w.width)
    ensures Recent(AfterCall(w, hits, now), now - w.width)
         == Recent(if Allowed(w, hits, now) then admitted + [now] else admitted, now - w.width)
  {
    var cutoff := now - w.width;
    RecentOfRecent(hits, cutoff, cutoff);
    if Allowed(w, hits, now) {
      assert AfterCall(w, hits, now) == Recent(hits, cutoff) + [now];
      RecentAppend(Recent(hits, cutoff), now, cutoff);
      RecentAppend(admitted, now, cutoff);
    } else {
      assert AfterCall(w, hits, now) == Recent(hits, cutoff);
    }
  }

  lemma {:induction false} AppendKeepsOrder(times: seq<int>, last: int, now: int)
    requires InOrder(times, last) && last <= now
    ensures InOrder(times, now) && InOrder(times + [now], now)
  {
    assert (times + [now])[..|times|] == times;
  }

  lemma CallKeepsTracking(w: Window, hits: seq<int>, admitted: seq<int>, last: int, now: int)
    requires ValidWindow(w) && Tracks(w, hits, admitted, last) && last <= now
    ensures Tracks(w, AfterCall(w, hits, now), if Allowed(w, hits, now) then admitted + [now] else admitted, now)
  {
    AppendKeepsOrder(admitted, last, now);
    RecentStaysAlike(w, hits, admitted, last, now);
    AllowedIffWindowHasRoom(w, hits, admitted, now);
    CallKeepsRecent(w, hits, admitted, now);
    if Allowed(w, hits, now) {
      AppendKeepsBound(w, admitted, now);
    }
  }

  lemma {:induction false} RunKeepsTracking(w: Window, hits: seq<int>, admitted: seq<int>, last: int, times: seq<int>)
    requires ValidWindow(w) && Tracks(w, hits, admitted, last) && FromOn(last, times)
    ensures Tracks(w, HitsAfter(w, hits, times), AdmittedAfter(w, hits, admitted, times),
                   if times == [] then last else times[|times| - 1])
    decreases |times|
  {
    if times != [] {
      CallKeepsTracking(w, hits, admitted, last, times[0]);
      RunKeepsTracking(w, AfterCall(w, hits, times[0]),
                       if Allowed(w, hits, times[0]) then admitted + [times[0]] else admitted,
                       times[0], times[1..]);
    }
  }

  // The calls let through by a fresh window.
  function Admitted(w: Window, times: seq<int>): seq<int> {
    AdmittedAfter(w, [], [], times)
  }

  // The clock never went back during these calls, nor since.
  ghost predicate NeverBack(times: seq<int>, now: int) {
    times != [] ==> FromOn(times[0], times) && times[|times| - 1] <= now
  }

  // Under a clock that never goes back, no window of the given width ever holds more than `limit` calls
  // that were let through, and a further call is refused exactly when its window is full.
  lemma {:induction false} WindowIsExact(w: Window, times: seq<int>, now: int, end: int)
    requires ValidWindow(w) && NeverBack(times, now)
    ensures InWindow(w, Admitted(w, times), end) <= w.limit
    ensures Allowed(w, HitsAfter(w, [], times), now) <==> InWindow(w, Admitted(w, times), now) < w.limit
  {
    if times != [] {
      assert Bounded(w, []);
      RunKeepsTracking(w, [], [], times[0], times);
      RecentStaysAlike(w, HitsAfter(w, [], times), Admitted(w, times), times[|times| - 1], now);
      AllowedIffWindowHasRoom(w, HitsAfter(w, [], times), Admitted(w, times), now);
    }
  }

  /// ThroughputLimiter: the window as a queue

  // Drops hits from the front while they are out of the window.
  function Popped(hits: seq<int>, cutoff: int): seq<int> {
    if hits != [] && hits[0] <= cutoff then Popped(hits[1..], cutoff) else hits
  }

  class ThroughputLimiter {
    const window: Window
    var hits: seq<int>
    // The times of the calls so far.
    ghost var calls: seq<int>

    ghost predicate Valid()
      reads this
    {
      ValidWindow(window) && hits == QueueAfter(window, [], calls)
    }

    constructor (window: Window)
      requires ValidWindow(window)
      ensures Valid() && this.window == window && hits == [] && calls == []
    {
      this.window := window;
      hits, calls := [], [];
    }

    // Under a clock that never goes back, lets the call through exactly when its window has room.
    method Allow(now: int) returns (ok: bool)
      requires Valid()
      modifies this
      ensures Valid()
      ensures calls == old(calls) + [now]
      ensures ok <==> |Popped(old(hits), now - window.width)| < window.limit
      ensures hits == AfterPopping(window, old(hits), now)
      ensures NeverBack(old(calls), now) ==>
                (ok <==> InWindow(window, Admitted(window, old(calls)), now) < window.limit)
    {
      var cutoff := now - window.width;
      OneMoreInQueue(window, [], calls, now);
      if NeverBack(calls, now) {
        QueueDecidesAsTheWindow(window, calls, now);
      }
      calls := calls + [now];
      while hits != [] && hits[0] <= cutoff
        invariant Popped(hits, cutoff) == Popped(old(hits), cutoff)
        invariant calls == old(calls) + [now]
        decreases |hits|
      {
        hits := hits[1..];
      }
      if |hits| >= window.limit {
        return false;
      }
      hits := hits + [now];
      return true;
    }
  }

  // On hits in time order, popping from the front keeps the recent ones: the queue is the window.
  lemma {:induction false} PoppingIsFiltering(hits: seq<int>, cutoff: int, now: int)
    requires InOrder(hits, now)
    ensures Popped(hits, cutoff) == Recent(hits, cutoff)
  {
    if hits != [] {
      var front, last := hits[..|hits| - 1], hits[|hits| - 1];
      PoppingIsFiltering(front, cutoff, last);
      PoppedAppend(front, last, cutoff);
      assert front + [last] == hits && [] + [last] == [last];
      if Recent(front, cutoff) != [] {
        RecentMeansLater(front, cutoff, last);
      }
    }
  }

  // Popping stops at the first hit to keep, so a hit appended behind it stays.
  lemma {:induction false} PoppedAppend(hits: seq<int>, last: int, cutoff: int)
    ensures Popped(hits, cutoff) != [] ==> Popped(hits + [last], cutoff) == Popped(hits, cutoff) + [last]
    ensures Popped(hits, cutoff) == [] ==> Popped(hits + [last], cutoff) == if last <= cutoff then [] else [last]
    decreases |hits|
  {
    if hits == [] {
      assert hits + [last] == [last];
      assert [last][1..] == [];
    } else {
      PoppedAppend(hits[1..], last, cutoff);
      assert (hits + [last])[1..] == hits[1..] + [last];
    }
  }

  lemma {:induction false} RecentMeansLater(hits: seq<int>, cutoff: int, now: int)
    requires InOrder(hits, now) && Recent(hits, cutoff) != []
    ensures cutoff < now
  {
    if hits[|hits| - 1] <= cutoff {
      RecentMeansLater(hits[..|hits| - 1], cutoff, hits[|hits| - 1]);
    }
  }

  lemma {:induction false} RecentKeepsOrder(hits: seq<int>, cutoff: int, now: int)
    requires InOrder(hits, now)
    ensures InOrder(Recent(hits, cutoff), now)
  {
    if hits != [] {
      var front, last := hits[..|hits| - 1], hits[|hits| - 1];
      RecentKeepsOrder(front, cutoff, last);
      assert (Recent(front, cutoff) + [last])[..|Recent(front, cutoff)|] == Recent(front, cutoff);
    }
  }

  function AfterPopping(w: Window, queue: seq<int>, now: int): seq<int> {
    var kept := Popped(queue, now - w.width);
    if |kept| < w.limit then kept + [now] else kept
  }

  // What the limiter's queue holds after calls at these times, by its own popping.
  function QueueAfter(w: Window, queue: seq<int>, times: seq<int>): seq<int>
    decreases |times|
  {
    if times == [] then queue else QueueAfter(w, AfterPopping(w, queue, times[0]), times[1..])
  }

  lemma {:induction false} OneMoreInQueue(w: Window, queue: seq<int>, times: seq<int>, now: int)
    ensures QueueAfter(w, queue, times + [now]) == AfterPopping(w, QueueAfter(w, queue, times), now)
    decreases |times|
  {
    if times == [] {
      assert times + [now] == [now];
    } else {
      assert (times + [now])[1..] == times[1..] + [now];
      OneMoreInQueue(w, AfterPopping(w, queue, times[0]), times[1..], now);
    }
  }

  // Under a clock that never goes back, the popping limiter is the window, so what holds of the window holds of it.
  lemma {:induction false} LimiterIsTheWindow(w: Window, queue: seq<int>, last: int, times: seq<int>)
    requires InOrder(queue, last) && FromOn(last, times)
    ensures QueueAfter(w, queue, times) == HitsAfter(w, queue, times)
    decreases |times|
  {
    if times != [] {
      var now := times[0];
      PoppingIsFiltering(queue, now - w.width, now);
      RecentKeepsOrder(queue, now - w.width, now);
      var kept := Recent(queue, now - w.width);
      assert (kept + [now])[..|kept|] == kept;
      LimiterIsTheWindow(w, AfterCall(w, queue, now), now, times[1..]);
    }
  }

  lemma {:induction false} QueueStaysInOrder(w: Window, queue: seq<int>, last: int, times: seq<int>, now: int)
    requires InOrder(queue, last) && FromOn(last, times) && (if times == [] then last else times[|times| - 1]) <= now
    ensures InOrder(QueueAfter(w, queue, times), now)
    decreases |times|
  {
    if times == [] {
      assert queue != [] ==> queue[|queue| - 1] <= now;
    } else {
      PoppingIsFiltering(queue, times[0] - w.width, times[0]);
      RecentKeepsOrder(queue, times[0] - w.width, times[0]);
      var kept := Recent(queue, times[0] - w.width);
      assert (kept + [times[0]])[..|kept|] == kept;
      QueueStaysInOrder(w, AfterPopping(w, queue, times[0]), times[0], times[1..], now);
    }
  }

  lemma {:induction false} QueueDecidesAsTheWindow(w: Window, times: seq<int>, now: int)
    requires ValidWindow(w) && NeverBack(times, now)
    ensures |Popped(QueueAfter(w, [], times), now - w.width)| < w.limit <==>
              InWindow(w, Admitted(w, times), now) < w.limit
  {
    if times != [] {
      LimiterIsTheWindow(w, [], times[0], times);
      QueueStaysInOrder(w, [], times[0], times, now);
      PoppingIsFiltering(QueueAfter(w, [], times), now - w.width, now);
      WindowIsExact(w, times, now, now);
    }
  }

  /// RateLimiter: a bounded table of windows

  // When a key was last let through; a key without hits counts as seen now.
  function LastSeen(hits: seq<int>, now: int): int {
    if hits == [] then now else hits[|hits| - 1]
  }

  // Under a clock that never goes back it is the latest hit.
  lemma {:induction false} LastSeenIsLatest(hits: seq<int>, bound: int, now: int)
    requires InOrder(hits, bound)
    ensures hits != [] ==> LastSeen(hits, now) in hits && forall i | 0 <= i < |hits| :: hits[i] <= LastSeen(hits, now)
    ensures hits == [] ==> LastSeen(hits, now) == now
  {
    if hits != [] {
      LastSeenIsLatest(hits[..|hits| - 1], hits[|hits| - 1], now);
    }
  }

  // The keys that may be evicted: those seen least recently.
  ghost predicate LeastRecentlySeen(table: map<string, seq<int>>, now: int, victim: string) {
    victim in table && forall key | key in table :: LastSeen(table[victim], now) <= LastSeen(table[key], now)
  }

  // Among keys with hits, the last hit of the evicted one is the earliest last hit; a key without hits is
  // evicted only when nobody's last hit is earlier than now.
  lemma EvictedIsLeastRecent(table: map<string, seq<int>>, now: int, victim: string, key: string)
    requires LeastRecentlySeen(table, now, victim) && key in table && table[key] != []
    ensures if table[victim] == [] then now <= table[key][|table[key]| - 1]
            else table[victim][|table[victim]| - 1] <= table[key][|table[key]| - 1]
  {
  }

  class RateLimiter {
    const window: Window
    const maxKeys: int
    var hits: map<string, seq<int>>
    // For each key in the table, the times of its calls since it entered the table.
    ghost var calls: Calls

    ghost predicate Valid()
      reads this
    {
      && ValidWindow(window) && 0 < maxKeys
      && |hits| <= maxKeys
      && hits.Keys == calls.Keys
      && forall key | key in hits :: hits[key] == HitsAfter(window, [], calls[key])
    }

    constructor (window: Window, maxKeys: int)
      requires ValidWindow(window) && 0 < maxKeys
      ensures Valid() && this.window == window && this.maxKeys == maxKeys && hits == map[]
    {
      this.window, this.maxKeys := window, maxKeys;
      hits, calls := map[], map[];
    }

    ghost function CallsOf(key: string): seq<int>
      reads this
    {
      TimesOf(calls, key)
    }

    method Evict(now: int) returns (victim: string)
      requires Valid() && hits != map[]
      modifies this
      ensures Valid()
      ensures LeastRecentlySeen(old(hits), now, victim)
      ensures hits == old(hits) - {victim} && calls == old(calls) - {victim}
    {
      var notAfter := (a, b) => LastSeen(a, now) <= LastSeen(b, now);
      assert exists key :: key in hits;
      SomeoneComesFirst(hits, hits.Keys, notAfter);
      victim :| victim in hits.Keys && ComesFirst(hits, hits.Keys, notAfter, victim);
      hits := hits - {victim};
      calls := calls - {victim};
    }

    // The key's window, as the table has it.
    function HitsOf(key: string): seq<int>
      reads this
    {
      if key in hits then hits[key] else []
    }

    lemma TableHoldsTheWindow(key: string)
      requires Valid()
      ensures HitsOf(key) == HitsAfter(window, [], CallsOf(key))
    {
    }

    method Store(key: string, kept: seq<int>, now: int)
      requires Valid() && (key in hits || |hits| < maxKeys)
      requires kept == AfterCall(window, HitsOf(key), now)
      modifies this
      ensures Valid()
      ensures hits == old(hits)[key := kept] && calls == old(calls)[key := old(CallsOf(key)) + [now]]
    {
      TableHoldsTheWindow(key);
      OneMoreCall(window, [], CallsOf(key), now);
      calls := calls[key := CallsOf(key) + [now]];
      hits := hits[key := kept];
    }

    // Decides as the key's own window does since the key entered the table. Only a new key can push
    // another out, and only from a full table.
    method Allow(key: string, now: int) returns (r: Result<bool, ()>, ghost evicted: Option<string>)
      requires Valid()
      modifies this
      ensures Valid()
      ensures r.Err? <==> key == "" || 1024 < |key|
      ensures r.Err? ==> unchanged(this) && evicted.None?
      ensures r.Ok? ==> r.value == Allowed(window, HitsAfter(window, [], old(CallsOf(key))), now)
      ensures r.Ok? && NeverBack(old(CallsOf(key)), now) ==>
                (r.value <==> InWindow(window, Admitted(window, old(CallsOf(key))), now) < window.limit)
      ensures r.Ok? ==> calls == CallsAfter(old(calls), Call(key, now, evicted))
      ensures r.Ok? ==> r.value == LetThrough(window, old(calls), Call(key, now, evicted))
      ensures evicted.Some? <==> r.Ok? && key !in old(hits) && |old(hits)| == maxKeys
      ensures evicted.Some? ==> LeastRecentlySeen(old(hits), now, evicted.value)
    {
      evicted := None;
      if key == "" || |key| > 1024 {
        r := Err(());
      } else {
        TableHoldsTheWindow(key);
        if NeverBack(CallsOf(key), now) {
          WindowIsExact(window, CallsOf(key), now, now);
        }
        var recent := Recent(HitsOf(key), now - window.width);
        r := Ok(|recent| < window.limit);
        if |recent| >= window.limit {
          Store(key, recent, now);
        } else {
          if key !in hits && |hits| >= maxKeys {
            var victim := Evict(now);
            evicted := Some(victim);
          }
          Store(key, recent + [now], now);
        }
      }
    }
  }

  /// Whole runs of the keyed limiter

  // A call on a key, and the key it pushes out of the table, if any.
  datatype Call = Call(key: string, now: int, evicted: Option<string>)

  // For each key in the table, the times of its calls since it entered the table.
  type Calls = map<string, seq<int>>

  function TimesOf(calls: Calls, key: string): seq<int> {
    if key in calls then calls[key] else []
  }

  function CallsAfter(calls: Calls, call: Call): Calls {
    var kept := if call.evicted.Some? then calls - {call.evicted.value} else calls;
    kept[call.key := TimesOf(calls, call.key) + [call.now]]
  }

  function LetThrough(w: Window, calls: Calls, call: Call): bool {
    Allowed(w, HitsAfter(w, [], TimesOf(calls, call.key)), call.now)
  }

  // The clock never goes back, and a call pushes out neither its own key nor the one followed.
  predicate Follows(key: string, from: int, run: seq<Call>)
    decreases |run|
  {
    run == [] || (
      && from <= run[0].now && run[0].evicted != Some(run[0].key) && run[0].evicted != Some(key)
      && Follows(key, run[0].now, run[1..]))
  }

  // The calls on the key let through: those before the run, and those of the run.
  function LetThroughOf(w: Window, calls: Calls, run: seq<Call>, key: string, before: seq<int>): seq<int>
    decreases |run|
  {
    if run == [] then before
    else
      var after := if run[0].key == key && LetThrough(w, calls, run[0]) then before + [run[0].now] else before;
      LetThroughOf(w, CallsAfter(calls, run[0]), run[1..], key, after)
  }

  // The times of the run's calls on the key.
  function CallTimes(run: seq<Call>, key: string): seq<int>
    decreases |run|
  {
    if run == [] then []
    else if run[0].key == key then [run[0].now] + CallTimes(run[1..], key)
    else CallTimes(run[1..], key)
  }

  lemma {:induction false} CallTimesInOrder(run: seq<Call>, key: string, from: int)
    requires Follows(key, from, run)
    ensures FromOn(from, CallTimes(run, key))
    decreases |run|
  {
    if run != [] {
      CallTimesInOrder(run[1..], key, run[0].now);
      FromEarlier(CallTimes(run[1..], key), from, run[0].now);
      if run[0].key == key {
        assert ([run[0].now] + CallTimes(run[1..], key))[1..] == CallTimes(run[1..], key);
      }
    }
  }

  lemma {:induction false} FromEarlier(times: seq<int>, from: int, later: int)
    requires from <= later && FromOn(later, times)
    ensures FromOn(from, times)
  {
  }

  // A call that does not push the key out changes its times only by its own, if it is on the key.
  lemma CallOnTable(calls: Calls, call: Call, key: string)
    requires call.evicted != Some(key)
    ensures TimesOf(CallsAfter(calls, call), key)
         == if call.key == key then TimesOf(calls, key) + [call.now] else TimesOf(calls, key)
  {
  }

  // Between two evictions of the key, the calls on other keys make no difference: what is let through is
  // what the key's own window lets through.
  lemma {:induction false} LetThroughIsOwnWindow(w: Window, calls: Calls, run: seq<Call>, key: string, from: int,
                                                 hits: seq<int>, before: seq<int>)
    requires Follows(key, from, run) && hits == HitsAfter(w, [], TimesOf(calls, key))
    ensures LetThroughOf(w, calls, run, key, before) == AdmittedAfter(w, hits, before, CallTimes(run, key))
    decreases |run|
  {
    if run != [] {
      var next, now := CallsAfter(calls, run[0]), run[0].now;
      CallOnTable(calls, run[0], key);
      if run[0].key == key {
        OneMoreCall(w, [], TimesOf(calls, key), now);
        LetThroughIsOwnWindow(w, next, run[1..], key, now, AfterCall(w, hits, now),
                              if Allowed(w, hits, now) then before + [now] else before);
        assert ([now] + CallTimes(run[1..], key))[1..] == CallTimes(run[1..], key);
      } else {
        LetThroughIsOwnWindow(w, next, run[1..], key, now, hits, before);
      }
    }
  }

  // In a run of calls over many keys, from a key's entry into the table until it is pushed out, no window
  // holds more than `limit` calls of that key that were let through.
  lemma {:induction false} KeyedWindowIsBounded(w: Window, calls: Calls, run: seq<Call>, key: string, from: int,
                                                end: int)
    requires ValidWindow(w) && key !in calls && Follows(key, from, run)
    ensures InWindow(w, LetThroughOf(w, calls, run, key, []), end) <= w.limit
  {
    var times := CallTimes(run, key);
    LetThroughIsOwnWindow(w, calls, run, key, from, [], []);
    CallTimesInOrder(run, key, from);
    WindowIsExact(w, times, if times == [] then end else times[|times| - 1], end);
  }

  lemma {:induction false} OneMoreCall(w: Window, hits: seq<int>, times: seq<int>, now: int)
    ensures HitsAfter(w, hits, times + [now]) == AfterCall(w, HitsAfter(w, hits, times), now)
    decreases |times|
  {
    if times == [] {
      assert times + [now] == [now];
    } else {
      assert (times + [now])[1..] == times[1..] + [now];
      OneMoreCall(w, AfterCall(w, hits, times[0]), times[1..], now);
    }
  }
}

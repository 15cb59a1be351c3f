/** A cache with expiry, and the fixed-window rate limiter that counts in it. */
module RateLimit {
  import opened Template
  import opened Rounding
  import opened Decimals

  const SECOND: nat := 1000000

  /** A counter and the instant it expires at; counters are kept as numbers. */
  datatype Entry = Entry(value: nat, expiresAt: Option<int>)

  type Cache = map<string, Entry>

  /** Expiry is lazy: a dead entry is dropped when it is looked at. */
  predicate Live(e: Entry, now: int) {
    e.expiresAt.None? || now < e.expiresAt.value
  }

  function LiveEntry(data: Cache, key: string, now: int): Option<Entry> {
    if key in data && Live(data[key], now) then Some(data[key]) else None
  }

  function ExpiryFrom(now: int, ttl: Option<nat>): Option<int> {
    if ttl.None? then None else Some(now + ttl.value * SECOND)
  }

  function Incremented(data: Cache, key: string, now: int, ttl: Option<nat>): (r: (Cache, nat)) {
    var entry := LiveEntry(data, key, now);
    if entry.None? then (data[key := Entry(1, ExpiryFrom(now, ttl))], 1)
    else (data[key := Entry(entry.value.value + 1, entry.value.expiresAt)], entry.value.value + 1)
  }

  /** A counter that is still live goes up by one and keeps its expiry; where there is none, or a dead one, it
      starts at one, to live for `ttl` seconds, or for good without. No other entry changes. */
  lemma IncrementTells(data: Cache, key: string, now: int, ttl: Option<nat>)
    ensures var live := key in data && (data[key].expiresAt.None? || now < data[key].expiresAt.value);
            var after, value := Incremented(data, key, now, ttl).0, Incremented(data, key, now, ttl).1;
            && after.Keys == data.Keys + {key} && after[key].value == value
            && (forall k :: k in data && k != key ==> after[k] == data[k])
            && (live ==> value == data[key].value + 1 && after[key].expiresAt == data[key].expiresAt)
            && (!live ==> value == 1 && after[key].expiresAt == match ttl
                                                              case None => None
                                                              case Some(s) => Some(now + s * 1_000_000))
  {
  }

  class DictCache {
    var data: Cache

    constructor ()
      ensures data == map[]
    {
      data := map[];
    }

    method FindLive(key: string, now: int) returns (entry: Option<Entry>)
      modifies this
      ensures entry == LiveEntry(old(data), key, now)
      ensures data == if key in old(data) && old(data)[key].expiresAt.Some? && old(data)[key].expiresAt.value <= now
                      then old(data) - {key} else old(data)
    {
      if key !in data {
        return None;
      }
      if !Live(data[key], now) {
        data := data - {key};
        return None;
      }
      entry := Some(data[key]);
    }

    method Incr(key: string, now: int, ttl: Option<nat>) returns (value: nat)
      modifies this
      ensures (data, value) == Incremented(old(data), key, now, ttl)
    {
      var entry := FindLive(key, now);
      if entry.None? {
        data := data[key := Entry(1, ExpiryFrom(now, ttl))];
        assert data == old(data)[key := Entry(1, ExpiryFrom(now, ttl))];
        return 1;
      }
      value := entry.value.value + 1;
      data := data[key := Entry(value, entry.value.expiresAt)];
    }
  }

  // ------------------------------------------------------------------ the limiter

  /** A request: who makes it, whether its path is exempt, and when, in microseconds. */
  datatype Request = Request(caller: string, exempt: bool, at: nat)

  datatype Limits = Limits(limit: nat, seconds: nat)

  predicate Sensible(l: Limits) {
    l.seconds > 0
  }

  function WindowOf(at: nat, l: Limits): nat
    requires Sensible(l)
  {
    at / SECOND / l.seconds
  }

  function KeyOf(caller: string, window: nat): string {
    "rl:" + caller + ":" + Decimal(window)
  }

  /** The cache afterwards and whether the request goes through. */
  function Dispatch(data: Cache, r: Request, l: Limits): (Cache, bool)
    requires Sensible(l)
  {
    if r.exempt then (data, true)
    else
      var counted := Incremented(data, KeyOf(r.caller, WindowOf(r.at, l)), r.at, Some(l.seconds));
      (counted.0, counted.1 <= l.limit)
  }

  class RateLimitMiddleware {
    const cache: DictCache
    const limits: Limits

    constructor (cache: DictCache, limits: Limits)
      ensures this.cache == cache && this.limits == limits
    {
      this.cache, this.limits := cache, limits;
    }

    method Handle(r: Request) returns (admitted: bool)
      requires Sensible(limits)
      modifies cache
      ensures (cache.data, admitted) == Dispatch(old(cache.data), r, limits)
    {
      if r.exempt {
        return true;
      }
      var used := cache.Incr(KeyOf(r.caller, WindowOf(r.at, limits)), r.at, Some(limits.seconds));
      admitted := used <= limits.limit;
    }
  }

  // ------------------------------------------------------------------ keys

  /** Two counters share a key only if they are one caller's in one window. */
  lemma KeysAreDistinct(a: string, m: nat, b: string, n: nat)
    requires KeyOf(a, m) == KeyOf(b, n)
    ensures a == b && m == n
  {
    var key := KeyOf(a, m);
    var s, t := Decimal(m), Decimal(n);
    var i, j := |key| - |s| - 1, |key| - |t| - 1;
    assert key[i] == ':' && key[j] == ':';
    assert key[i + 1..] == s && key[j + 1..] == t;
    forall k | i < k < |key| ensures key[k] != ':' {
      assert key[k] == s[k - i - 1] && s[k - i - 1] in s;
    }
    forall k | j < k < |key| ensures key[k] != ':' {
      assert key[k] == t[k - j - 1] && t[k - j - 1] in t;
    }
    assert i == j;
    DecimalInjective(m, n);
    assert key[3..i] == a && key[3..j] == b;
  }

  // ------------------------------------------------------------------ runs of requests

  datatype Log = Log(data: Cache, admitted: seq<bool>)

  function Serve(requests: seq<Request>, l: Limits): (log: Log)
    requires Sensible(l)
    ensures |log.admitted| == |requests|
  {
    if requests == [] then Log(map[], [])
    else
      var before := Serve(requests[..|requests| - 1], l);
      var after := Dispatch(before.data, requests[|requests| - 1], l);
      Log(after.0, before.admitted + [after.1])
  }

  predicate Counts(r: Request, caller: string, window: nat, l: Limits)
    requires Sensible(l)
  {
    !r.exempt && r.caller == caller && WindowOf(r.at, l) == window
  }

  /** How many counted requests a caller makes in a window. */
  function Made(requests: seq<Request>, caller: string, window: nat, l: Limits): nat
    requires Sensible(l)
  {
    if requests == [] then 0
    else
      Made(requests[..|requests| - 1], caller, window, l)
      + if Counts(requests[|requests| - 1], caller, window, l) then 1 else 0
  }

  /** How many of them go through. */
  function Through(requests: seq<Request>, admitted: seq<bool>, caller: string, window: nat, l: Limits): nat
    requires Sensible(l) && |admitted| == |requests|
  {
    if requests == [] then 0
    else
      var last := |requests| - 1;
      Through(requests[..last], admitted[..last], caller, window, l)
      + if Counts(requests[last], caller, window, l) && admitted[last] then 1 else 0
  }

  lemma WindowBounds(at: nat, l: Limits)
    requires Sensible(l)
    ensures var span := l.seconds * SECOND; WindowOf(at, l) * span <= at < (WindowOf(at, l) + 1) * span
    ensures WindowOf(at, l) * (l.seconds * 1_000_000) <= at < (WindowOf(at, l) + 1) * (l.seconds * 1_000_000)
  {
    var second, w := at / SECOND, WindowOf(at, l);
    assert second * SECOND <= at < second * SECOND + SECOND;
    assert w * l.seconds <= second && second + 1 <= (w + 1) * l.seconds;
    assert w * (l.seconds * SECOND) == w * l.seconds * SECOND;
    assert (w + 1) * (l.seconds * SECOND) == (w + 1) * l.seconds * SECOND;
  }

  /** The counter of a window stands at the requests made in it, and outlives the window. */
  ghost predicate Counted(requests: seq<Request>, data: Cache, caller: string, window: nat, l: Limits)
    requires Sensible(l)
  {
    var key, made := KeyOf(caller, window), Made(requests, caller, window, l);
    && (made == 0 ==> key !in data)
    && (made > 0 ==> key in data && data[key].value == made && data[key].expiresAt.Some?
                     && data[key].expiresAt.value >= (window + 1) * (l.seconds * SECOND))
  }

  lemma OwnCounter(before: seq<Request>, data: Cache, r: Request, l: Limits)
    requires Sensible(l) && !r.exempt && Counted(before, data, r.caller, WindowOf(r.at, l), l)
    ensures Counted(before + [r], Dispatch(data, r, l).0, r.caller, WindowOf(r.at, l), l)
    ensures Dispatch(data, r, l).1 <==> Made(before, r.caller, WindowOf(r.at, l), l) < l.limit
  {
    WindowBounds(r.at, l);
    assert (before + [r])[..|before|] == before;
    var span := l.seconds * SECOND;
    assert (WindowOf(r.at, l) + 1) * span == WindowOf(r.at, l) * span + span;
  }

  lemma OtherCounter(before: seq<Request>, data: Cache, r: Request, caller: string, window: nat, l: Limits)
    requires Sensible(l) && Counted(before, data, caller, window, l) && !Counts(r, caller, window, l)
    ensures Counted(before + [r], Dispatch(data, r, l).0, caller, window, l)
  {
    assert (before + [r])[..|before|] == before;
    if !r.exempt && KeyOf(caller, window) == KeyOf(r.caller, WindowOf(r.at, l)) {
      KeysAreDistinct(caller, window, r.caller, WindowOf(r.at, l));
    }
  }

  /** Over every sequence of requests, each caller gets exactly the first `limit` requests of each aligned
      window through: the counter cannot expire inside its own window. */
  lemma {:induction false} EveryCounterIsRight(requests: seq<Request>, caller: string, window: nat, l: Limits)
    requires Sensible(l)
    ensures Counted(requests, Serve(requests, l).data, caller, window, l)
    ensures Through(requests, Serve(requests, l).admitted, caller, window, l)
            == Min(Made(requests, caller, window, l), l.limit)
  {
    if requests != [] {
      var before, r := requests[..|requests| - 1], requests[|requests| - 1];
      var log := Serve(before, l);
      assert requests == before + [r];
      assert Serve(requests, l).admitted[..|before|] == log.admitted;
      EveryCounterIsRight(before, caller, window, l);
      if Counts(r, caller, window, l) {
        OwnCounter(before, log.data, r, l);
      } else {
        OtherCounter(before, log.data, r, caller, window, l);
      }
    }
  }

  /** Request by request: it goes through if it is exempt or fewer than `limit` came before it from its
      caller in its window, and not otherwise. */
  lemma {:induction false} GoesThroughExactly(requests: seq<Request>, i: nat, l: Limits)
    requires Sensible(l) && i < |requests|
    ensures Serve(requests, l).admitted[i]
       <==> requests[i].exempt || Made(requests[..i], requests[i].caller, WindowOf(requests[i].at, l), l) < l.limit
  {
    var front, last := requests[..|requests| - 1], requests[|requests| - 1];
    if i < |front| {
      assert front[..i] == requests[..i];
      GoesThroughExactly(front, i, l);
    } else if !last.exempt {
      EveryCounterIsRight(front, last.caller, WindowOf(last.at, l), l);
      OwnCounter(front, Serve(front, l).data, last, l);
    }
  }

  // ------------------------------------------------------------------ any interval of one window's length

  predicate Within(r: Request, caller: string, lo: nat, hi: nat) {
    !r.exempt && r.caller == caller && lo <= r.at < hi
  }

  /** How many of a caller's requests go through in a half-open interval. */
  function Passed(requests: seq<Request>, admitted: seq<bool>, caller: string, lo: nat, hi: nat): nat
    requires |admitted| == |requests|
  {
    if requests == [] then 0
    else
      var last := |requests| - 1;
      Passed(requests[..last], admitted[..last], caller, lo, hi)
      + if Within(requests[last], caller, lo, hi) && admitted[last] then 1 else 0
  }

  /** An instant less than a window's length later lies in the same window or the next. */
  lemma AdjacentWindow(lo: nat, at: nat, l: Limits)
    requires Sensible(l) && lo <= at < lo + l.seconds * SECOND
    ensures WindowOf(at, l) == WindowOf(lo, l) || WindowOf(at, l) == WindowOf(lo, l) + 1
  {
    var span, v, w := l.seconds * SECOND, WindowOf(at, l), WindowOf(lo, l);
    WindowBounds(at, l);
    WindowBounds(lo, l);
    assert span * v == v * span && span * w == w * span;
    assert (v + 1) * span == v * span + span && (w + 1) * span == w * span + span;
    assert span * (v + 1) == (v + 1) * span && span * (w + 2) == w * span + span + span;
    if v < w {
      MulMonotone(span, v + 1, w);
    } else if v > w + 1 {
      MulMonotone(span, w + 2, v);
    }
  }

  lemma {:induction false} PassedInTwoWindows(requests: seq<Request>, admitted: seq<bool>, caller: string, lo: nat,
                                              l: Limits)
    requires Sensible(l) && |admitted| == |requests|
    ensures Passed(requests, admitted, caller, lo, lo + l.seconds * SECOND)
         <= Through(requests, admitted, caller, WindowOf(lo, l), l)
            + Through(requests, admitted, caller, WindowOf(lo, l) + 1, l)
  {
    if requests != [] {
      var last := |requests| - 1;
      PassedInTwoWindows(requests[..last], admitted[..last], caller, lo, l);
      if lo <= requests[last].at < lo + l.seconds * SECOND {
        AdjacentWindow(lo, requests[last].at, l);
      }
    }
  }

  /** In any half-open interval as long as a window, at most twice the limit goes through. */
  lemma AtMostTwiceTheLimit(requests: seq<Request>, caller: string, lo: nat, l: Limits)
    requires Sensible(l)
    ensures Passed(requests, Serve(requests, l).admitted, caller, lo, lo + l.seconds * SECOND) <= 2 * l.limit
  {
    PassedInTwoWindows(requests, Serve(requests, l).admitted, caller, lo, l);
    EveryCounterIsRight(requests, caller, WindowOf(lo, l), l);
    EveryCounterIsRight(requests, caller, WindowOf(lo, l) + 1, l);
  }

  // ------------------------------------------------------------------ the bound is reached

  function Burst(n: nat, at: nat, caller: string): seq<Request> {
    seq(n, _ => Request(caller, false, at))
  }

  lemma {:induction false} MadeByBurst(before: seq<Request>, n: nat, at: nat, caller: string, window: nat, l: Limits)
    requires Sensible(l)
    ensures Made(before + Burst(n, at, caller), caller, window, l)
         == Made(before, caller, window, l) + if WindowOf(at, l) == window then n else 0
  {
    var all := before + Burst(n, at, caller);
    if n == 0 {
      assert all == before;
    } else {
      assert all[..|all| - 1] == before + Burst(n - 1, at, caller);
      MadeByBurst(before, n - 1, at, caller, window, l);
    }
  }

  lemma EdgeWindows(l: Limits)
    requires Sensible(l)
    ensures WindowOf(l.seconds * SECOND - 1, l) == 0 && WindowOf(l.seconds * SECOND, l) == 1
  {
    var span := l.seconds * SECOND;
    WindowBounds(span - 1, l);
    WindowBounds(span, l);
    var v, w := WindowOf(span - 1, l), WindowOf(span, l);
    assert span * v == v * span && span * w == w * span;
    if v > 0 { MulMonotone(span, 1, v); }
    if w > 1 { MulMonotone(span, 2, w); }
  }

  lemma MadeByTwoBursts(n: nat, a: nat, b: nat, caller: string, window: nat, l: Limits)
    requires Sensible(l)
    ensures Made(Burst(n, a, caller) + Burst(n, b, caller), caller, window, l)
         == (if WindowOf(a, l) == window then n else 0) + if WindowOf(b, l) == window then n else 0
  {
    assert [] + Burst(n, a, caller) == Burst(n, a, caller);
    MadeByBurst([], n, a, caller, window, l);
    MadeByBurst(Burst(n, a, caller), n, b, caller, window, l);
  }

  lemma BothWindowsFull(caller: string, a: nat, b: nat, l: Limits)
    requires Sensible(l) && WindowOf(a, l) == 0 && WindowOf(b, l) == 1
    ensures var requests := Burst(l.limit, a, caller) + Burst(l.limit, b, caller);
            Through(requests, Serve(requests, l).admitted, caller, 0, l) == l.limit
            && Through(requests, Serve(requests, l).admitted, caller, 1, l) == l.limit
  {
    var requests := Burst(l.limit, a, caller) + Burst(l.limit, b, caller);
    MadeByTwoBursts(l.limit, a, b, caller, 0, l);
    MadeByTwoBursts(l.limit, a, b, caller, 1, l);
    EveryCounterIsRight(requests, caller, 0, l);
    EveryCounterIsRight(requests, caller, 1, l);
  }

  /** When every request lies at the edge between windows 0 and 1, what passes around the edge is what
      goes through in the two windows. */
  lemma {:induction false} EdgePassesBoth(requests: seq<Request>, admitted: seq<bool>, caller: string, edge: nat,
                                          l: Limits)
    requires Sensible(l) && |admitted| == |requests| && edge > 1
    requires WindowOf(edge - 1, l) == 0 && WindowOf(edge, l) == 1
    requires forall r :: r in requests ==> r.at == edge - 1 || r.at == edge
    ensures Passed(requests, admitted, caller, edge - 1, edge - 1 + edge)
         == Through(requests, admitted, caller, 0, l) + Through(requests, admitted, caller, 1, l)
  {
    if requests != [] {
      var last := |requests| - 1;
      assert requests[last] in requests && forall r :: r in requests[..last] ==> r in requests;
      EdgePassesBoth(requests[..last], admitted[..last], caller, edge, l);
    }
  }

  lemma EdgeBurstsPass(requests: seq<Request>, caller: string, edge: nat, l: Limits)
    requires Sensible(l) && edge > 1 && WindowOf(edge - 1, l) == 0 && WindowOf(edge, l) == 1
    requires requests == Burst(l.limit, edge - 1, caller) + Burst(l.limit, edge, caller)
    ensures Passed(requests, Serve(requests, l).admitted, caller, edge - 1, edge - 1 + edge) == l.limit + l.limit
  {
    BothWindowsFull(caller, edge - 1, edge, l);
    EdgePassesBoth(requests, Serve(requests, l).admitted, caller, edge, l);
  }

  /** Around the edge between two windows twice the limit does pass, within one microsecond. */
  lemma TwiceTheLimitIsReached(caller: string, l: Limits)
    requires Sensible(l)
    ensures var edge := l.seconds * SECOND;
            var requests := Burst(l.limit, edge - 1, caller) + Burst(l.limit, edge, caller);
            Passed(requests, Serve(requests, l).admitted, caller, edge - 1, edge - 1 + edge) == 2 * l.limit
  {
    var edge := l.seconds * SECOND;
    EdgeWindows(l);
    EdgeBurstsPass(Burst(l.limit, edge - 1, caller) + Burst(l.limit, edge, caller), caller, edge, l);
  }
}

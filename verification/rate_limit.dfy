/** The gateway's per-endpoint request counter: a fixed window that starts at its first request. Times are
    nanoseconds; the key lives in Redis with an optional expiry. */
module RateLimit {
  import opened Options

  const WINDOW: nat := 60_000_000_000

  /** The Redis key: how often it was incremented, and when it disappears. No expiry means it never does. */
  datatype Counter = Counter(count: nat, expiresAt: Option<nat>)

  /** What became of an increment: done and heard of, not done, or done with the reply lost. */
  datatype Incr = Heard | Refused | Unheard

  /** One request: its time, its increment, and whether Redis took the expiry that follows a first one. */
  datatype Request = Request(at: nat, incr: Incr, expireOk: bool)

  function Current(key: Option<Counter>, now: nat): Option<Counter> {
    if key.Some? && key.value.expiresAt.Some? && key.value.expiresAt.value <= now then None else key
  }

  /** The number an increment gives this request. */
  function Number(key: Option<Counter>, r: Request): nat {
    var live := Current(key, r.at);
    (if live.Some? then live.value.count else 0) + 1
  }

  /** checkRateLimit: the key afterwards, and whether the request was admitted. An error from Redis rejects. */
  function Check(key: Option<Counter>, limit: nat, r: Request): (Option<Counter>, bool) {
    if r.incr.Refused? then (key, false)
    else
      var live, count := Current(key, r.at), Number(key, r);
      var expires := if count == 1 && r.incr.Heard? && r.expireOk then Some(r.at + WINDOW)
                     else if live.Some? then live.value.expiresAt else None;
      (Some(Counter(count, expires)), r.incr.Heard? && count <= limit)
  }

  /** The counter as the gateway holds it, shared by every request to the endpoint. */
  class Limiter {
    var key: Option<Counter>

    constructor () ensures key == None { key := None; }

    /** INCR, then EXPIRE when the count is one, then the comparison. */
    method CheckRateLimit(limit: nat, r: Request) returns (admitted: bool)
      modifies this
      ensures (key, admitted) == Check(old(key), limit, r)
    {
      if r.incr.Refused? { return false; }
      key := Current(key, r.at);
      if key.None? { key := Some(Counter(0, None)); }
      key := Some(key.value.(count := key.value.count + 1));
      if r.incr.Unheard? { return false; }
      if key.value.count == 1 && r.expireOk {
        key := Some(key.value.(expiresAt := Some(r.at + WINDOW)));
      }
      return key.value.count <= limit;
    }

    /** Step 5 of Enforce: without a positive limit, or without Redis, requests pass uncounted. */
    method Enforce(limit: int, redis: bool, r: Request) returns (admitted: bool)
      modifies this
      ensures (key, admitted) == if limit > 0 && redis then Check(old(key), limit, r) else (old(key), true)
    {
      if limit > 0 && redis {
        admitted := CheckRateLimit(limit, r);
      } else {
        admitted := true;
      }
    }
  }

  // ------------------------------------------------------------------ runs

  ghost predicate InOrder(rs: seq<Request>) {
    forall i, j :: 0 <= i < j < |rs| ==> rs[i].at <= rs[j].at
  }

  ghost function KeyAfter(limit: nat, rs: seq<Request>): Option<Counter> {
    if rs == [] then None else Check(KeyAfter(limit, rs[..|rs| - 1]), limit, rs[|rs| - 1]).0
  }

  ghost predicate LastAdmitted(limit: nat, rs: seq<Request>)
    requires rs != []
  {
    Check(KeyAfter(limit, rs[..|rs| - 1]), limit, rs[|rs| - 1]).1
  }

  /** The last request's increment was one of the first `limit` of its window, heard of or not. */
  ghost predicate LastTakesSlot(limit: nat, rs: seq<Request>)
    requires rs != []
  {
    !rs[|rs| - 1].incr.Refused? && Number(KeyAfter(limit, rs[..|rs| - 1]), rs[|rs| - 1]) <= limit
  }

  /** How many of the requests took such a slot with a time in [from, to). */
  ghost function Slots(limit: nat, rs: seq<Request>, from: nat, to: nat): nat {
    if rs == [] then 0
    else Slots(limit, rs[..|rs| - 1], from, to) +
         if LastTakesSlot(limit, rs) && from <= rs[|rs| - 1].at < to then 1 else 0
  }

  /** How many of the requests were admitted with a time in [from, to). */
  ghost function Admitted(limit: nat, rs: seq<Request>, from: nat, to: nat): nat {
    if rs == [] then 0
    else Admitted(limit, rs[..|rs| - 1], from, to) +
         if LastAdmitted(limit, rs) && from <= rs[|rs| - 1].at < to then 1 else 0
  }

  /** The time of the request that started the window the counter is in. */
  ghost function Opened(limit: nat, rs: seq<Request>): nat {
    if rs == [] then 0
    else
      var last := rs[|rs| - 1];
      if !last.incr.Refused? && Current(KeyAfter(limit, rs[..|rs| - 1]), last.at).None? then last.at
      else Opened(limit, rs[..|rs| - 1])
  }

  function Min(a: nat, b: nat): nat { if a <= b then a else b }

  function Count(key: Option<Counter>): nat { if key.Some? then key.value.count else 0 }

  /** Every key in the run carries an expiry one window after it was opened, or none at all. */
  lemma {:induction false} ExpiryIsWindow(limit: nat, rs: seq<Request>)
    requires InOrder(rs)
    ensures var k := KeyAfter(limit, rs);
      k.Some? ==>
        k.value.count >= 1 && (k.value.expiresAt.Some? ==> k.value.expiresAt.value == Opened(limit, rs) + WINDOW)
    ensures rs != [] ==> Opened(limit, rs) <= rs[|rs| - 1].at
  {
    if rs != [] {
      ExpiryIsWindow(limit, rs[..|rs| - 1]);
    }
  }

  lemma {:induction false} NothingBeforeFirst(limit: nat, rs: seq<Request>, from: nat, to: nat)
    requires InOrder(rs) && (rs != [] ==> rs[|rs| - 1].at < from)
    ensures Slots(limit, rs, from, to) == 0
  {
    if rs != [] {
      if |rs| > 1 { assert rs[|rs| - 2].at <= rs[|rs| - 1].at; }
      NothingBeforeFirst(limit, rs[..|rs| - 1], from, to);
    }
  }

  /** Every admission takes a slot; the others were taken by increments nobody heard of. */
  lemma {:induction false} AdmittedTakeSlots(limit: nat, rs: seq<Request>, from: nat, to: nat)
    ensures Admitted(limit, rs, from, to) <= Slots(limit, rs, from, to)
    ensures (forall i :: 0 <= i < |rs| ==> !rs[i].incr.Unheard?) ==>
      Admitted(limit, rs, from, to) == Slots(limit, rs, from, to)
  {
    if rs != [] { AdmittedTakeSlots(limit, rs[..|rs| - 1], from, to); }
  }

  /** The slots taken in the current window are exactly what the counter has seen, capped by the limit. */
  lemma {:induction false} WindowSlots(limit: nat, rs: seq<Request>, to: nat)
    requires InOrder(rs) && KeyAfter(limit, rs).Some? && (rs != [] ==> rs[|rs| - 1].at < to)
    ensures Slots(limit, rs, Opened(limit, rs), to) == Min(Count(KeyAfter(limit, rs)), limit)
  {
    var init, last := rs[..|rs| - 1], rs[|rs| - 1];
    ExpiryIsWindow(limit, init);
    if |rs| > 1 { assert rs[|rs| - 2].at <= last.at; }
    if !last.incr.Refused? && Current(KeyAfter(limit, init), last.at).None? {
      BeforeOpening(limit, init, last.at, to);
    } else {
      WindowSlots(limit, init, to);
    }
  }

  /** A window is opened no earlier than the previous requests; at its very instant nothing admitted came from a window
      that had expired by then. */
  lemma {:induction false} BeforeOpening(limit: nat, rs: seq<Request>, at: nat, to: nat)
    requires InOrder(rs) && (rs != [] ==> rs[|rs| - 1].at <= at) && Current(KeyAfter(limit, rs), at).None?
    ensures Slots(limit, rs, at, to) == 0
  {
    if rs != [] {
      var init, last := rs[..|rs| - 1], rs[|rs| - 1];
      if |rs| > 1 { assert rs[|rs| - 2].at <= last.at; }
      ExpiryIsWindow(limit, rs);
      if !last.incr.Refused? {
        ExpiryIsLater(limit, rs);
        NothingBeforeFirst(limit, rs, at, to);
      } else if last.at < at {
        NothingBeforeFirst(limit, rs, at, to);
      } else {
        BeforeOpening(limit, init, at, to);
      }
    }
  }

  /** Right after an increment the key outlives the moment of the increment. */
  lemma ExpiryIsLater(limit: nat, rs: seq<Request>)
    requires rs != [] && !rs[|rs| - 1].incr.Refused?
    ensures var k := KeyAfter(limit, rs);
      k.Some? && (k.value.expiresAt.Some? ==> rs[|rs| - 1].at < k.value.expiresAt.value)
  {
  }

  /** Main result, first half: the window the counter is in never admits more than the limit. */
  lemma EachWindowAtMostLimit(limit: nat, rs: seq<Request>)
    requires InOrder(rs) && KeyAfter(limit, rs).Some?
    ensures Admitted(limit, rs, Opened(limit, rs), rs[|rs| - 1].at + 1) <= limit
  {
    WindowSlots(limit, rs, rs[|rs| - 1].at + 1);
    AdmittedTakeSlots(limit, rs, Opened(limit, rs), rs[|rs| - 1].at + 1);
  }

  /** What the slots taken in [from, from + WINDOW) can be, by where the current window was opened: before the span,
      in it, or after it. */
  ghost predicate SpanBound(limit: nat, rs: seq<Request>, from: nat) {
    var k, a := KeyAfter(limit, rs), Slots(limit, rs, from, from + WINDOW);
    var m, w := Min(Count(k), limit), Opened(limit, rs);
    && a <= 2 * limit - 1
    && (k.None? ==> a == 0)
    && (k.Some? && w < from ==> a <= m - 1)
    && (k.Some? && from <= w < from + WINDOW ==> a <= limit - 1 + m)
  }

  lemma {:induction false} SpanHolds(limit: nat, rs: seq<Request>, from: nat)
    requires limit >= 1 && InOrder(rs)
    ensures SpanBound(limit, rs, from)
  {
    if rs != [] {
      var init, last := rs[..|rs| - 1], rs[|rs| - 1];
      SpanHolds(limit, init, from);
      ExpiryIsWindow(limit, init);
      if |rs| > 1 { assert rs[|rs| - 2].at <= last.at; }
      if last.at < from { NothingBeforeFirst(limit, rs, from, from + WINDOW); }
    }
  }

  /** Main result, second half. Whatever Redis does with the expiry, any half-open span of one minute admits at most 2
      * limit - 1 requests: a span that reaches two windows misses the request that opened the first. */
  lemma AnySpanAtMostTwiceLimit(limit: nat, rs: seq<Request>, from: nat)
    requires limit >= 1 && InOrder(rs)
    ensures Admitted(limit, rs, from, from + 60_000_000_000) <= 2 * limit - 1
  {
    SpanHolds(limit, rs, from);
    AdmittedTakeSlots(limit, rs, from, from + WINDOW);
  }

  // ------------------------------------------------------- the bound is met

  function Burst(n: nat, at: nat): (rs: seq<Request>)
    ensures |rs| == n && forall i :: 0 <= i < n ==> rs[i] == Request(at, Heard, true)
  {
    if n == 0 then [] else Burst(n - 1, at) + [Request(at, Heard, true)]
  }

  /** A request that finds the window open and below the limit. */
  lemma LiveAdmits(limit: nat, rs: seq<Request>, at: nat, from: nat, to: nat)
    requires var k := KeyAfter(limit, rs);
      k.Some? && 1 <= k.value.count < limit && k.value.expiresAt.Some? && at < k.value.expiresAt.value
    ensures var more, k := rs + [Request(at, Heard, true)], KeyAfter(limit, rs).value;
      && KeyAfter(limit, more) == Some(k.(count := k.count + 1))
      && Admitted(limit, more, from, to) == Admitted(limit, rs, from, to) + if from <= at < to then 1 else 0
  {
  }

  /** `all` is rs followed by n requests at one moment of its window. */
  ghost predicate BurstAfter(limit: nat, rs: seq<Request>, n: nat, at: nat, from: nat, to: nat, all: seq<Request>) {
    && KeyAfter(limit, rs).Some? && KeyAfter(limit, all) ==
         Some(Counter(KeyAfter(limit, rs).value.count + n, KeyAfter(limit, rs).value.expiresAt))
    && Admitted(limit, all, from, to) == Admitted(limit, rs, from, to) + n
  }

  lemma {:induction false} BurstAdmits(limit: nat, rs: seq<Request>, n: nat, at: nat, from: nat, to: nat)
    requires var k := KeyAfter(limit, rs);
      k.Some? && k.value.count + n <= limit && k.value.count >= 1 && k.value.expiresAt.Some? &&
        at < k.value.expiresAt.value
    requires from <= at < to
    ensures BurstAfter(limit, rs, n, at, from, to, rs + Burst(n, at))
  {
    if n == 0 {
      assert rs + Burst(0, at) == rs;
    } else {
      BurstAdmits(limit, rs, n - 1, at, from, to);
      BurstGoesOn(limit, rs, n - 1, at, from, to, rs + Burst(n - 1, at));
      assert rs + Burst(n, at) == rs + Burst(n - 1, at) + [Request(at, Heard, true)];
    }
  }

  lemma BurstGoesOn(limit: nat, rs: seq<Request>, n: nat, at: nat, from: nat, to: nat, all: seq<Request>)
    requires BurstAfter(limit, rs, n, at, from, to, all) && from <= at < to
    requires var k := KeyAfter(limit, rs).value;
      1 <= k.count && k.count + n < limit && k.expiresAt.Some? && at < k.expiresAt.value
    ensures BurstAfter(limit, rs, n + 1, at, from, to, all + [Request(at, Heard, true)])
  {
    LiveAdmits(limit, all, at, from, to);
  }

  /** A request that finds the key gone opens a window. */
  lemma OpeningAdmits(limit: nat, rs: seq<Request>, at: nat, from: nat, to: nat)
    requires limit >= 1 && Current(KeyAfter(limit, rs), at).None?
    ensures var more := rs + [Request(at, Heard, true)];
      && KeyAfter(limit, more) == Some(Counter(1, Some(at + WINDOW)))
      && Admitted(limit, more, from, to) == Admitted(limit, rs, from, to) + if from <= at < to then 1 else 0
  {
  }

  /** One request, then limit - 1 at the last instant of its window, then limit at the first instant of the next. */
  ghost function WorstCase(limit: nat): (rs: seq<Request>)
    requires limit >= 1
    ensures InOrder(rs) && forall i :: 0 <= i < |rs| ==> rs[i].incr.Heard? && rs[i].expireOk
  {
    [] + [Request(0, Heard, true)] + Burst(limit - 1, WINDOW - 1) + [Request(WINDOW, Heard, true)] +
      Burst(limit - 1, WINDOW)
  }

  /** One window's part of it: the request that opens it, and limit - 1 more. */
  lemma WindowOf(limit: nat, rs: seq<Request>, at: nat, last: nat, from: nat, to: nat)
    requires limit >= 1 && Current(KeyAfter(limit, rs), at).None? && at <= last < at + WINDOW && from <= last < to
    ensures var all := rs + [Request(at, Heard, true)] + Burst(limit - 1, last);
      && KeyAfter(limit, all) == Some(Counter(limit, Some(at + WINDOW)))
      && Admitted(limit, all, from, to) ==
           Admitted(limit, rs, from, to) + limit - 1 + if from <= at < to then 1 else 0
  {
    OpeningAdmits(limit, rs, at, from, to);
    BurstAdmits(limit, rs + [Request(at, Heard, true)], limit - 1, last, from, to);
  }

  /** The bound is reached: the span that starts right after the first request admits 2 * limit - 1. */
  lemma TwiceLimitLessOneIsReached(limit: nat)
    requires limit >= 1
    ensures Admitted(limit, WorstCase(limit), 1, 1 + WINDOW) == 2 * limit - 1
  {
    WindowOf(limit, [], 0, WINDOW - 1, 1, 1 + WINDOW);
    WindowOf(limit, [] + [Request(0, Heard, true)] + Burst(limit - 1, WINDOW - 1), WINDOW, WINDOW, 1, 1 + WINDOW);
  }

  // ------------------------------------------------------------- rejections

  /** A request that was counted and heard of it is turned away only when exactly `limit` slots were taken since the
      window opened, which are admissions except for those whose reply was lost; and while the expiry is in place that
      was less than a minute ago. */
  lemma RejectedOnlyWhenFull(limit: nat, rs: seq<Request>)
    requires InOrder(rs) && rs != [] && rs[|rs| - 1].incr.Heard? && !LastAdmitted(limit, rs)
    ensures Slots(limit, rs, Opened(limit, rs), rs[|rs| - 1].at + 1) == limit
    ensures (forall i :: 0 <= i < |rs| ==> !rs[i].incr.Unheard?) ==>
      Admitted(limit, rs, Opened(limit, rs), rs[|rs| - 1].at + 1) == limit
    ensures KeyAfter(limit, rs).Some?
    ensures KeyAfter(limit, rs).value.expiresAt.Some? ==> rs[|rs| - 1].at < Opened(limit, rs) + 60_000_000_000
  {
    WindowSlots(limit, rs, rs[|rs| - 1].at + 1);
    AdmittedTakeSlots(limit, rs, Opened(limit, rs), rs[|rs| - 1].at + 1);
    ExpiryIsWindow(limit, rs);
    ExpiryIsLater(limit, rs);
  }

  /** A request is admitted exactly if its increment was heard of and fewer than `limit` slots of its window were taken
      before it. What Redis does not confirm is turned away. */
  lemma AdmittedExactly(limit: nat, rs: seq<Request>)
    requires limit >= 1 && InOrder(rs) && rs != []
    ensures var (init, last) := (rs[..|rs| - 1], rs[|rs| - 1]);
      LastAdmitted(limit, rs) <==> last.incr.Heard? && Slots(limit, init, Opened(limit, rs), last.at + 1) < limit
  {
    var init, last := rs[..|rs| - 1], rs[|rs| - 1];
    if |rs| > 1 { assert rs[|rs| - 2].at <= last.at; }
    if last.incr.Heard? {
      if Current(KeyAfter(limit, init), last.at).None? {
        BeforeOpening(limit, init, last.at, last.at + 1);
      } else {
        WindowSlots(limit, init, last.at + 1);
      }
    }
  }

  /** Once the counter has reached the limit, a counted request gets through exactly when the key carries an expiry that
      has passed. */
  lemma RecoversExactly(key: Counter, limit: nat, r: Request)
    requires limit >= 1 && key.count >= limit && r.incr.Heard?
    ensures Check(Some(key), limit, r).1 <==> key.expiresAt.Some? && key.expiresAt.value <= r.at
  {
  }

  /** When the first increment's expiry was lost, reaching the limit closes the endpoint for good: nothing that comes
      after, however late, is admitted. */
  lemma {:induction false} LostExpiryBlocksForever(limit: nat, rs: seq<Request>, more: seq<Request>, from: nat, to: nat)
    requires limit >= 1
    requires var k := KeyAfter(limit, rs); k.Some? && k.value.count >= limit && k.value.expiresAt.None?
    ensures Admitted(limit, rs + more, from, to) == Admitted(limit, rs, from, to)
    ensures var k := KeyAfter(limit, rs + more); k.Some? && k.value.count >= limit && k.value.expiresAt.None?
  {
    if more == [] {
      assert rs + more == rs;
    } else {
      var init := more[..|more| - 1];
      LostExpiryBlocksForever(limit, rs, init, from, to);
      assert (rs + more)[..|rs + more| - 1] == rs + init;
    }
  }
}

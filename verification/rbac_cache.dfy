/** The permission cache in front of the grants table. Key is one (user, organization) pair; time is in
    seconds. A check is one cache read, or a database read followed some time later by a cache write. */
module RbacCache {
  import opened Options
  import opened Permissions

  const PERMISSION_CACHE_TTL: nat := 900

  type Key = nat
  type Table = map<Key, seq<string>>

  /** A cached list, with when it was read from the table and when it was written to the cache. What Redis holds may
      have become unreadable since. */
  datatype Entry = Entry(perms: seq<string>, readAt: nat, wroteAt: nat, readable: bool)

  /** A check that has read the table and not yet written the cache. */
  datatype Fetch = Fetch(key: Key, perms: seq<string>, readAt: nat)

  /** A past moment: the clock and the grants table then. */
  datatype Moment = Moment(time: nat, table: Table)

  datatype World = World(now: nat, table: Table, cache: map<Key, Entry>, flying: map<nat, Fetch>, past: seq<Moment>)

  function Lookup(table: Table, k: Key): seq<string> { if k in table then table[k] else [] }

  /** Redis serves an entry for TTL seconds after the write; one that does not parse counts as a miss. */
  predicate Serves(w: World, k: Key) {
    k in w.cache && w.now < w.cache[k].wroteAt + PERMISSION_CACHE_TTL && w.cache[k].readable
  }

  datatype Step =
    | Tick(seconds: nat)
    | SetGrants(key: Key, perms: seq<string>)
    | Invalidate(key: Key)
    | Garble(key: Key)                     // what is stored no longer parses
    | Hit(key: Key)                        // the cached list is returned
    | BeginFetch(pid: nat, key: Key)       // cache miss, or cache unreachable: read the table
    | EndFetch(pid: nat, stored: bool)     // write the cache if the list is not empty and the write succeeds; return

  predicate Enabled(w: World, s: Step) {
    match s
    case Hit(k) => Serves(w, k)
    case BeginFetch(pid, _) => pid !in w.flying
    case EndFetch(pid, _) => pid in w.flying
    case _ => true
  }

  function Act(w: World, s: Step): World
    requires Enabled(w, s)
  {
    match s
    case Tick(d) => w.(now := w.now + d)
    case SetGrants(k, perms) => w.(table := w.table[k := perms])
    case Invalidate(k) => w.(cache := w.cache - {k})
    case Garble(k) => if k in w.cache then w.(cache := w.cache[k := w.cache[k].(readable := false)]) else w
    case Hit(_) => w
    case BeginFetch(pid, k) => w.(flying := w.flying[pid := Fetch(k, Lookup(w.table, k), w.now)])
    case EndFetch(pid, stored) =>
      var f := w.flying[pid];
      var cache := if stored && |f.perms| > 0 then w.cache[f.key := Entry(f.perms, f.readAt, w.now, true)] else w.cache;
      w.(flying := w.flying - {pid}, cache := cache)
  }

  /** Every step is followed by a note of the moment it left behind. */
  function Next(w: World, s: Step): World
    requires Enabled(w, s)
  {
    var v := Act(w, s);
    v.(past := v.past + [Moment(v.now, v.table)])
  }

  /** What a step hands back to its caller: the list, and the longest it may have waited before being cached. */
  datatype Answer = Answer(key: Key, perms: seq<string>, delay: nat)

  function Wait(e: Entry): nat { if e.wroteAt >= e.readAt then e.wroteAt - e.readAt else 0 }

  function Returns(w: World, s: Step): Option<Answer>
    requires Enabled(w, s)
  {
    match s
    case Hit(k) =>
      Some(Answer(k, w.cache[k].perms, Wait(w.cache[k])))
    case EndFetch(pid, _) =>
      Some(Answer(w.flying[pid].key, w.flying[pid].perms,
        if w.now >= w.flying[pid].readAt then w.now - w.flying[pid].readAt else 0))
    case _ => None
  }

  ghost predicate WasTrue(past: seq<Moment>, k: Key, perms: seq<string>, time: nat) {
    exists m :: 0 <= m < |past| && past[m].time == time && Lookup(past[m].table, k) == perms
  }

  ghost predicate Inv(w: World) {
    && |w.past| > 0 && w.past[|w.past| - 1] == Moment(w.now, w.table)
    && (forall k :: k in w.cache ==>
          w.cache[k].readAt <= w.cache[k].wroteAt <= w.now && WasTrue(w.past, k, w.cache[k].perms, w.cache[k].readAt))
    && (forall p :: p in w.flying ==>
          w.flying[p].readAt <= w.now && WasTrue(w.past, w.flying[p].key, w.flying[p].perms, w.flying[p].readAt))
  }

  function Start(table: Table): World { World(0, table, map[], map[], [Moment(0, table)]) }

  lemma PastGrows(past: seq<Moment>, m: Moment, k: Key, perms: seq<string>, time: nat)
    requires WasTrue(past, k, perms, time)
    ensures WasTrue(past + [m], k, perms, time)
  {
    var i :| 0 <= i < |past| && past[i].time == time && Lookup(past[i].table, k) == perms;
    assert (past + [m])[i] == past[i];
  }

  lemma NowIsTrue(w: World, k: Key)
    requires Inv(w)
    ensures WasTrue(w.past, k, Lookup(w.table, k), w.now)
  {
  }

  lemma NextKeeps(w: World, s: Step)
    requires Inv(w) && Enabled(w, s)
    ensures Inv(Next(w, s))
  {
    NextKeepsCache(w, s);
    NextKeepsFlying(w, s);
  }

  lemma NextKeepsCache(w: World, s: Step)
    requires Inv(w) && Enabled(w, s)
    ensures var v := Next(w, s);
      forall k :: k in v.cache ==>
        v.cache[k].readAt <= v.cache[k].wroteAt <= v.now && WasTrue(v.past, k, v.cache[k].perms, v.cache[k].readAt)
  {
    var v := Next(w, s);
    forall k | k in v.cache ensures WasTrue(v.past, k, v.cache[k].perms, v.cache[k].readAt) {
      PastGrows(w.past, Moment(v.now, v.table), k, v.cache[k].perms, v.cache[k].readAt);
    }
  }

  lemma NextKeepsFlying(w: World, s: Step)
    requires Inv(w) && Enabled(w, s)
    ensures var v := Next(w, s);
      forall p :: p in v.flying ==>
        v.flying[p].readAt <= v.now && WasTrue(v.past, v.flying[p].key, v.flying[p].perms, v.flying[p].readAt)
  {
    var v := Next(w, s);
    if s.BeginFetch? { NowIsTrue(w, s.key); }
    forall p | p in v.flying ensures WasTrue(v.past, v.flying[p].key, v.flying[p].perms, v.flying[p].readAt) {
      PastGrows(w.past, Moment(v.now, v.table), v.flying[p].key, v.flying[p].perms, v.flying[p].readAt);
    }
  }

  ghost predicate Lawful(w: World, run: seq<Step>)
    decreases |run|
  {
    run == [] || (Enabled(w, run[0]) && Lawful(Next(w, run[0]), run[1..]))
  }

  ghost function Run(w: World, run: seq<Step>): World
    requires Lawful(w, run)
    decreases |run|
  {
    if run == [] then w else Run(Next(w, run[0]), run[1..])
  }

  lemma {:induction false} RunKeeps(w: World, run: seq<Step>)
    requires Inv(w) && Lawful(w, run)
    ensures Inv(Run(w, run))
    decreases |run|
  {
    if run != [] {
      NextKeeps(w, run[0]);
      RunKeeps(Next(w, run[0]), run[1..]);
    }
  }

  /** The list is what the grants table held at some moment at most `age` seconds ago. */
  ghost predicate HeldWithin(w: World, k: Key, perms: seq<string>, age: nat) {
    exists m :: 0 <= m < |w.past| && w.past[m].time <= w.now <= w.past[m].time + age &&
      Lookup(w.past[m].table, k) == perms
  }

  /** In any consistent world a cached list is at most the TTL older than the time it waited to be cached; a fetched one
      is exactly as old as its fetch. */
  lemma StepIsRecent(w: World, s: Step)
    requires Inv(w) && Enabled(w, s) && Returns(w, s).Some?
    ensures var a := Returns(w, s).value;
      HeldWithin(w, a.key, a.perms, if s.Hit? then PERMISSION_CACHE_TTL + a.delay else a.delay)
  {
    if s.Hit? {
      var e := w.cache[s.key];
      var m :| 0 <= m < |w.past| && w.past[m].time == e.readAt && Lookup(w.past[m].table, s.key) == e.perms;
    } else {
      var f := w.flying[s.pid];
      var m :| 0 <= m < |w.past| && w.past[m].time == f.readAt && Lookup(w.past[m].table, f.key) == f.perms;
    }
  }

  /** Main result. After any interleaving of checks, invalidations, grant changes and clock ticks, every list a check
      returns is the table's value at an earlier moment no older than the TTL plus the time that list waited between
      being read and being cached. */
  lemma AnswersAreRecent(table: Table, run: seq<Step>, s: Step)
    requires Lawful(Start(table), run) && Enabled(Run(Start(table), run), s)
    ensures var w := Run(Start(table), run);
      Returns(w, s).Some? ==>
        var a := Returns(w, s).value;
        HeldWithin(w, a.key, a.perms, PERMISSION_CACHE_TTL + a.delay)
  {
    RunKeeps(Start(table), run);
    var w := Run(Start(table), run);
    if Returns(w, s).Some? {
      StepIsRecent(w, s);
      var a := Returns(w, s).value;
      HeldLonger(w, a.key, a.perms, if s.Hit? then PERMISSION_CACHE_TTL + a.delay else a.delay,
        PERMISSION_CACHE_TTL + a.delay);
    }
  }

  lemma HeldLonger(w: World, k: Key, perms: seq<string>, age: nat, longer: nat)
    requires HeldWithin(w, k, perms, age) && age <= longer
    ensures HeldWithin(w, k, perms, longer)
  {
  }

  ghost predicate Idle(w: World, k: Key) {
    k !in w.cache && forall p :: p in w.flying ==> w.flying[p].key != k
  }

  /** Nothing brings a key back into the cache until somebody checks it. */
  lemma {:induction false} StaysIdle(w: World, run: seq<Step>, k: Key)
    requires Idle(w, k) && Lawful(w, run) && forall i :: 0 <= i < |run| ==> !(run[i].BeginFetch? && run[i].key == k)
    ensures Idle(Run(w, run), k)
    decreases |run|
  {
    if run != [] {
      StaysIdle(Next(w, run[0]), run[1..], k);
    }
  }

  /** With no fetch of that key in flight, the first check after an invalidation cannot be answered from the cache, and
      its database read sees the table as it is at that moment. */
  lemma FirstCheckIsCurrent(w: World, k: Key, run: seq<Step>, pid: nat)
    requires forall p :: p in w.flying ==> w.flying[p].key != k
    requires Lawful(Next(w, Invalidate(k)), run)
    requires forall i :: 0 <= i < |run| ==> !(run[i].BeginFetch? && run[i].key == k)
    ensures var v := Run(Next(w, Invalidate(k)), run);
      && !Enabled(v, Hit(k))
      && (Enabled(v, BeginFetch(pid, k)) ==>
            var u := Next(v, BeginFetch(pid, k));
            Returns(u, EndFetch(pid, true)) == Some(Answer(k, Lookup(v.table, k), 0)))
  {
    StaysIdle(Next(w, Invalidate(k)), run, k);
  }

  /** A fetch that was already in flight when the key was invalidated puts its list back: the check after it returns
      that list, so it is current if and only if the list it read still equals the table. */
  lemma FlyingFetchUndoesInvalidation(w: World, k: Key, pid: nat)
    requires pid in w.flying && w.flying[pid].key == k && |w.flying[pid].perms| > 0
    ensures var v := Next(Next(w, Invalidate(k)), EndFetch(pid, true));
      && Enabled(v, Hit(k))
      && (Returns(v, Hit(k)).value.perms == Lookup(v.table, k) <==> w.flying[pid].perms == Lookup(w.table, k))
  {
  }

  /** The race, concretely: a check reads, the grant is taken away and the key invalidated, and the check then caches
      what it read. The next check still gets the old list. */
  lemma StaleAfterInvalidation() returns (run: seq<Step>, w: World)
    ensures Lawful(Start(map[0 := ["user:write"]]), run) && w == Run(Start(map[0 := ["user:write"]]), run)
    ensures Lookup(w.table, 0) == ["user:read"] && Enabled(w, Hit(0))
    ensures Returns(w, Hit(0)).value.perms == ["user:write"]
    ensures Invalidate(0) in run
  {
    var w0 := Start(map[0 := ["user:write"]]);
    var w1 := Next(w0, BeginFetch(7, 0));
    var w2 := Next(w1, SetGrants(0, ["user:read"]));
    var w3 := Next(w2, Invalidate(0));
    w := Next(w3, EndFetch(7, true));
    run := [BeginFetch(7, 0), SetGrants(0, ["user:read"]), Invalidate(0), EndFetch(7, true)];
    assert run[1..] == [SetGrants(0, ["user:read"]), Invalidate(0), EndFetch(7, true)];
    assert run[1..][1..] == [Invalidate(0), EndFetch(7, true)];
    assert run[1..][1..][1..] == [EndFetch(7, true)];
    assert run[1..][1..][1..][1..] == [];
    assert Run(w, []) == w && Run(w3, [EndFetch(7, true)]) == w;
    assert Run(w2, run[1..][1..]) == w && Run(w1, run[1..]) == w;
    assert run[2] == Invalidate(0);
  }

  // --------------------------------------------------------------- service

  /** How one check's calls go: whether GET answers, the query succeeds and SET succeeds, and how long the query's
      answer waits before it is cached. `pid` names the fetch. */
  datatype Calls = Calls(getOk: bool, queryOk: bool, setOk: bool, delay: nat, pid: nat)

  predicate IsHit(w: World, redis: bool, k: Key, io: Calls) { redis && io.getOk && Serves(w, k) }

  /** The steps of the protocol that one check takes. */
  function StepsOf(w: World, redis: bool, k: Key, io: Calls): seq<Step> {
    if IsHit(w, redis, k, io) then [Hit(k)]
    else if !io.queryOk then []
    else FetchSteps(k, io.pid, io.delay, redis && io.setOk)
  }

  /** The last of these steps hands this list for this key to its caller, after it waited this long. */
  ghost predicate Answers(w: World, steps: seq<Step>, k: Key, perms: seq<string>, delay: nat) {
    && steps != [] && Lawful(w, steps[..|steps| - 1])
    && var before := Run(w, steps[..|steps| - 1]);
       Enabled(before, steps[|steps| - 1]) && Returns(before, steps[|steps| - 1]) == Some(Answer(k, perms, delay))
  }

  lemma HitIsLawful(w: World, k: Key)
    requires Serves(w, k)
    ensures Lawful(w, [Hit(k)]) && Run(w, [Hit(k)]) == Next(w, Hit(k))
    ensures Answers(w, [Hit(k)], k, w.cache[k].perms, Wait(w.cache[k]))
    ensures Inv(w) ==> HeldWithin(Next(w, Hit(k)), k, w.cache[k].perms, PERMISSION_CACHE_TTL + Wait(w.cache[k]))
  {
    assert [Hit(k)][1..] == [] && [Hit(k)][..0] == [];
    if Inv(w) {
      StepIsRecent(w, Hit(k));
      HeldStill(w, Hit(k), k, w.cache[k].perms, PERMISSION_CACHE_TTL + Wait(w.cache[k]));
    }
  }

  lemma HeldStill(w: World, s: Step, k: Key, perms: seq<string>, age: nat)
    requires Enabled(w, s) && !s.Tick? && HeldWithin(w, k, perms, age)
    ensures HeldWithin(Next(w, s), k, perms, age)
  {
    var m :| 0 <= m < |w.past| && w.past[m].time <= w.now <= w.past[m].time + age &&
      Lookup(w.past[m].table, k) == perms;
    assert Next(w, s).past[m] == w.past[m];
  }

  /** The world once a fetch has read the table and waited. */
  function Waited(w: World, k: Key, pid: nat, delay: nat): World
    requires pid !in w.flying
  {
    Next(Next(w, BeginFetch(pid, k)), Tick(delay))
  }

  function FetchSteps(k: Key, pid: nat, delay: nat, stored: bool): seq<Step> {
    [BeginFetch(pid, k), Tick(delay), EndFetch(pid, stored)]
  }

  lemma FetchIsLawful(w: World, k: Key, pid: nat, delay: nat, stored: bool)
    requires pid !in w.flying
    ensures Lawful(w, FetchSteps(k, pid, delay, stored))
    ensures Run(w, FetchSteps(k, pid, delay, stored)) == Next(Waited(w, k, pid, delay), EndFetch(pid, stored))
  {
    var steps, end := FetchSteps(k, pid, delay, stored), EndFetch(pid, stored);
    var read, waited := Next(w, BeginFetch(pid, k)), Waited(w, k, pid, delay);
    assert steps[1..] == [Tick(delay), end];
    TwoSteps(read, Tick(delay), end);
    assert Lawful(read, steps[1..]) && Run(read, steps[1..]) == Next(waited, end);
  }

  /** What a fetch leaves behind, all of it. */
  lemma FetchLeaves(w: World, k: Key, pid: nat, delay: nat, stored: bool)
    requires pid !in w.flying
    ensures var perms, end := Lookup(w.table, k), w.now + delay;
      Next(Waited(w, k, pid, delay), EndFetch(pid, stored)) == w.(now := end,
        cache := if stored && perms != [] then w.cache[k := Entry(perms, w.now, end, true)] else w.cache,
        past := w.past + [Moment(w.now, w.table)] + [Moment(end, w.table)] + [Moment(end, w.table)])
  {
    assert w.flying[pid := Fetch(k, Lookup(w.table, k), w.now)] - {pid} == w.flying;
  }

  lemma FetchAnswers(w: World, k: Key, pid: nat, delay: nat, stored: bool)
    requires pid !in w.flying
    ensures Answers(w, FetchSteps(k, pid, delay, stored), k, Lookup(w.table, k), delay)
  {
    TwoSteps(w, BeginFetch(pid, k), Tick(delay));
    assert FetchSteps(k, pid, delay, stored)[..2] == [BeginFetch(pid, k), Tick(delay)];
  }

  lemma FetchIsRecent(w: World, k: Key, pid: nat, delay: nat, stored: bool)
    requires Inv(w) && pid !in w.flying
    ensures HeldWithin(Next(Waited(w, k, pid, delay), EndFetch(pid, stored)), k, Lookup(w.table, k), delay)
  {
    NextKeeps(w, BeginFetch(pid, k));
    NextKeeps(Next(w, BeginFetch(pid, k)), Tick(delay));
    StepIsRecent(Waited(w, k, pid, delay), EndFetch(pid, stored));
    HeldStill(Waited(w, k, pid, delay), EndFetch(pid, stored), k, Lookup(w.table, k), delay);
  }

  lemma TwoSteps(w: World, a: Step, b: Step)
    requires Enabled(w, a) && Enabled(Next(w, a), b)
    ensures Lawful(w, [a, b]) && Run(w, [a, b]) == Next(Next(w, a), b)
  {
    assert [a, b][1..] == [b] && [b][1..] == [];
    assert Run(Next(w, a), [b]) == Run(Next(Next(w, a), b), []);
  }

  /** What one check hands over, with how long that waited, and what it leaves behind: it is answered out of the cache,
      or, without a readable entry younger than the TTL, out of the table. */
  ghost predicate Checked(w: World, v: World, redis: bool, k: Key, io: Calls, r: Option<seq<string>>, delay: nat) {
    var row, end := Lookup(w.table, k), w.now + io.delay;
    if IsHit(w, redis, k, io) then
      && r == Some(w.cache[k].perms) && delay == Wait(w.cache[k])
      && v == w.(past := w.past + [Moment(w.now, w.table)])
    else if !io.queryOk then r == None && v == w
    else
      && r == Some(row) && delay == io.delay
      && v == w.(now := end,
           cache := if redis && io.setOk && row != [] then w.cache[k := Entry(row, w.now, end, true)] else w.cache,
           past := w.past + [Moment(w.now, w.table)] + [Moment(end, w.table)] + [Moment(end, w.table)])
  }

  /** These steps are lawful and lead from w to v. */
  ghost predicate LeadsTo(w: World, steps: seq<Step>, v: World) { Lawful(w, steps) && Run(w, steps) == v }

  lemma HitLeads(w: World, k: Key)
    requires Serves(w, k)
    ensures LeadsTo(w, [Hit(k)], w.(past := w.past + [Moment(w.now, w.table)]))
  {
    HitIsLawful(w, k);
  }

  lemma FetchLeads(w: World, v: World, k: Key, pid: nat, delay: nat, stored: bool)
    requires pid !in w.flying && v == Next(Waited(w, k, pid, delay), EndFetch(pid, stored))
    ensures LeadsTo(w, FetchSteps(k, pid, delay, stored), v)
  {
    FetchIsLawful(w, k, pid, delay, stored);
  }

  lemma CheckLeads(w: World, v: World, redis: bool, k: Key, io: Calls, r: Option<seq<string>>, delay: nat,
      steps: seq<Step>)
    requires io.pid !in w.flying && Checked(w, v, redis, k, io, r, delay) && steps == StepsOf(w, redis, k, io)
    ensures LeadsTo(w, steps, v)
  {
    if IsHit(w, redis, k, io) {
      HitLeads(w, k);
    } else if io.queryOk {
      FetchEnds(w, v, k, io.pid, io.delay, redis && io.setOk);
      FetchLeads(w, v, k, io.pid, io.delay, redis && io.setOk);
    }
  }

  lemma CheckIsLawful(w: World, v: World, redis: bool, k: Key, io: Calls, r: Option<seq<string>>, delay: nat)
    requires io.pid !in w.flying && Checked(w, v, redis, k, io, r, delay)
    ensures Lawful(w, StepsOf(w, redis, k, io)) && v == Run(w, StepsOf(w, redis, k, io))
  {
    CheckLeads(w, v, redis, k, io, r, delay, StepsOf(w, redis, k, io));
  }

  /** A fetch ends in this world exactly as written out. */
  lemma FetchEnds(w: World, v: World, k: Key, pid: nat, delay: nat, stored: bool)
    requires pid !in w.flying
    requires var row, end := Lookup(w.table, k), w.now + delay;
      v == w.(now := end, cache := if stored && row != [] then w.cache[k := Entry(row, w.now, end, true)] else w.cache,
           past := w.past + [Moment(w.now, w.table)] + [Moment(end, w.table)] + [Moment(end, w.table)])
    ensures v == Next(Waited(w, k, pid, delay), EndFetch(pid, stored))
  {
    FetchLeaves(w, k, pid, delay, stored);
  }

  lemma CheckHandsOver(w: World, v: World, redis: bool, k: Key, io: Calls, r: Option<seq<string>>, delay: nat)
    requires io.pid !in w.flying && Checked(w, v, redis, k, io, r, delay)
    ensures r.Some? ==> Answers(w, StepsOf(w, redis, k, io), k, r.value, delay)
  {
    if IsHit(w, redis, k, io) {
      HitIsLawful(w, k);
    } else if io.queryOk {
      FetchAnswers(w, k, io.pid, io.delay, redis && io.setOk);
    }
  }

  lemma CheckIsRecent(w: World, v: World, redis: bool, k: Key, io: Calls, r: Option<seq<string>>, delay: nat)
    requires Inv(w) && io.pid !in w.flying && Checked(w, v, redis, k, io, r, delay) && r.Some?
    ensures HeldWithin(v, k, r.value, if IsHit(w, redis, k, io) then PERMISSION_CACHE_TTL + delay else delay)
  {
    if IsHit(w, redis, k, io) {
      HitIsLawful(w, k);
    } else {
      FetchLeaves(w, k, io.pid, io.delay, redis && io.setOk);
      FetchIsRecent(w, k, io.pid, io.delay, redis && io.setOk);
    }
  }

  /** From w to v, these calls end in handing this list over, and it was the table's row within the TTL, if it came
      out of the cache, plus the time it waited between being read and being cached. */
  ghost predicate Recent(w: World, v: World, redis: bool, k: Key, io: Calls, perms: seq<string>) {
    exists delay :: Answers(w, StepsOf(w, redis, k, io), k, perms, delay) && (Inv(w) ==>
      Inv(v) && HeldWithin(v, k, perms, if IsHit(w, redis, k, io) then PERMISSION_CACHE_TTL + delay else delay))
  }

  lemma CheckAnswers(w: World, v: World, redis: bool, k: Key, io: Calls, r: Option<seq<string>>, delay: nat)
    requires io.pid !in w.flying && Checked(w, v, redis, k, io, r, delay)
    ensures Lawful(w, StepsOf(w, redis, k, io)) && v == Run(w, StepsOf(w, redis, k, io))
    ensures r.Some? ==> Recent(w, v, redis, k, io, r.value)
  {
    CheckIsLawful(w, v, redis, k, io, r, delay);
    CheckHandsOver(w, v, redis, k, io, r, delay);
    if r.Some? && Inv(w) {
      RunKeeps(w, StepsOf(w, redis, k, io));
      CheckIsRecent(w, v, redis, k, io, r, delay);
    }
  }

  /** RBACServiceImpl with what it talks to: the grants table, and Redis unless it runs without. Other checks may be in
      flight. */
  class RbacService {
    const redis: bool
    var now: nat
    var table: Table
    var cache: map<Key, Entry>
    ghost var flying: map<nat, Fetch>
    ghost var past: seq<Moment>

    constructor (redis: bool, table: Table)
      ensures this.redis == redis && Abs() == Start(table)
    {
      this.redis, this.table := redis, table;
      now, cache, flying, past := 0, map[], map[], [Moment(0, table)];
    }

    ghost function Abs(): World
      reads this
    {
      World(now, table, cache, flying, past)
    }

    /** Redis answers with a list that parses and was stored less than fifteen minutes ago. */
    predicate Cached(k: Key, io: Calls)
      reads this
    {
      redis && io.getOk && k in cache && cache[k].readable && now < cache[k].wroteAt + 900
    }

    /** A check is a hit, a failure, or a read followed by a write, exactly as the protocol has them. The list is the
        cached one, or the table's row; only a row with something in it is stored. */
    method GetUserPermissions(k: Key, io: Calls) returns (r: Option<seq<string>>)
      requires io.pid !in flying
      modifies this
      ensures Lawful(old(Abs()), StepsOf(old(Abs()), redis, k, io))
      ensures Abs() == Run(old(Abs()), StepsOf(old(Abs()), redis, k, io))
      ensures flying == old(flying)
      ensures r.None? <==> !old(Cached(k, io)) && !io.queryOk
      ensures r.Some? ==> Recent(old(Abs()), Abs(), redis, k, io, r.value)
      ensures old(Cached(k, io)) ==> r == Some(old(cache[k].perms)) && cache == old(cache)
      ensures r.Some? && !old(Cached(k, io)) ==>
        && r.value == (if k in old(table) then old(table)[k] else [])
        && cache == if redis && io.setOk && r.value != []
                    then old(cache)[k := Entry(r.value, old(now), old(now) + io.delay, true)] else old(cache)
    {
      ghost var w := Abs();
      if redis && io.getOk && k in cache && now < cache[k].wroteAt + PERMISSION_CACHE_TTL && cache[k].readable {
        past := past + [Moment(now, table)];
        CheckAnswers(w, Abs(), redis, k, io, Some(cache[k].perms), Wait(cache[k]));
        return Some(cache[k].perms);
      }
      if !io.queryOk {
        CheckAnswers(w, w, redis, k, io, None, 0);
        return None;
      }
      var perms, readAt := if k in table then table[k] else [], now;
      now := now + io.delay;
      past := past + [Moment(readAt, table)] + [Moment(now, table)] + [Moment(now, table)];
      if redis && |perms| > 0 && io.setOk { cache := cache[k := Entry(perms, readAt, now, true)]; }
      CheckAnswers(w, Abs(), redis, k, io, Some(perms), io.delay);
      return Some(perms);
    }

    method InvalidateCache(k: Key, delOk: bool)
      modifies this
      ensures Abs() == if redis && delOk then Next(old(Abs()), Invalidate(k)) else old(Abs())
    {
      if redis && delOk {
        cache := cache - {k};
        past := past + [Moment(now, table)];
      }
    }

    /** Yes exactly if some permission on such a list matches. */
    method HasPermission(k: Key, io: Calls, permission: string) returns (r: Option<bool>)
      requires io.pid !in flying
      modifies this
      ensures Lawful(old(Abs()), StepsOf(old(Abs()), redis, k, io))
      ensures Abs() == Run(old(Abs()), StepsOf(old(Abs()), redis, k, io))
      ensures r.None? <==> !old(Cached(k, io)) && !io.queryOk
      ensures r.Some? ==> exists perms ::
        Recent(old(Abs()), Abs(), redis, k, io, perms) &&
          (r.value <==> exists g :: g in perms && Matches(g, permission))
      ensures old(Cached(k, io)) ==>
        (r == Some(true) <==> exists g :: g in old(cache[k].perms) && Matches(g, permission))
      ensures !old(Cached(k, io)) && io.queryOk ==>
        (r == Some(true) <==> k in old(table) && exists g :: g in old(table)[k] && Matches(g, permission))
    {
      var perms := GetUserPermissions(k, io);
      if perms.None? { return None; }
      var found := AnyMatches(perms.value, [permission]);
      return Some(found);
    }

    method HasAnyPermission(k: Key, io: Calls, permissions: seq<string>) returns (r: Option<bool>)
      requires io.pid !in flying
      modifies this
      ensures Lawful(old(Abs()), StepsOf(old(Abs()), redis, k, io))
      ensures Abs() == Run(old(Abs()), StepsOf(old(Abs()), redis, k, io))
      ensures r.None? <==> !old(Cached(k, io)) && !io.queryOk
      ensures r.Some? ==> exists perms ::
        Recent(old(Abs()), Abs(), redis, k, io, perms) &&
          (r.value <==> exists g, p :: g in perms && p in permissions && Matches(g, p))
      ensures old(Cached(k, io)) ==>
        (r == Some(true) <==> exists g, p :: g in old(cache[k].perms) && p in permissions && Matches(g, p))
      ensures !old(Cached(k, io)) && io.queryOk ==>
        (r == Some(true) <==> k in old(table) && exists g, p :: g in old(table)[k] && p in permissions && Matches(g, p))
    {
      var perms := GetUserPermissions(k, io);
      if perms.None? { return None; }
      var found := AnyMatches(perms.value, permissions);
      return Some(found);
    }
  }

  /** The nested loop both checks run: some grant matches some requirement. */
  method AnyMatches(perms: seq<string>, permissions: seq<string>) returns (found: bool)
    ensures found <==> exists g, p :: g in perms && p in permissions && Matches(g, p)
  {
    for i := 0 to |perms|
      invariant forall g, p :: g in perms[..i] && p in permissions ==> !Matches(g, p)
    {
      for j := 0 to |permissions|
        invariant forall p :: p in permissions[..j] ==> !Matches(perms[i], p)
      {
        if Matches(perms[i], permissions[j]) { return true; }
      }
    }
    return false;
  }
}

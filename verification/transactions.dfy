/** The transaction manager: nested units of work join the outermost transaction. A unit of work is a
    finite tree of writes and nested units; where a body goes on to may depend on whether a nested unit failed. */
module Transactions {
  import opened Sequences

  /** What the database does for a transaction if one is opened: whether BEGIN and COMMIT succeed. */
  datatype Env = Env(beginOk: bool, commitOk: bool)

  /** `joins` tells a repository that asks Querier for the context's transaction from one that keeps to its own pool. */
  datatype Prog<W> =
    | Return(ok: bool)
    | Write(op: W, joins: bool, rest: Prog<W>)
    | Within(env: Env, body: Prog<W>, onOk: Prog<W>, onErr: Prog<W>)

  /** The committed writes in order, and the open transaction's own. */
  datatype Store<W> = Store(committed: seq<W>, pending: seq<W>)

  function Exec<W>(p: Prog<W>, inTx: bool, s: Store<W>): (Store<W>, bool) {
    match p
    case Return(ok) => (s, ok)
    case Write(op, joins, rest) =>
      if inTx && joins then Exec(rest, inTx, s.(pending := s.pending + [op]))
      else Exec(rest, inTx, s.(committed := s.committed + [op]))
    case Within(env, body, onOk, onErr) =>
      if inTx then
        var (s1, ok) := Exec(body, true, s);
        if ok then Exec(onOk, inTx, s1) else Exec(onErr, inTx, s1)
      else if !env.beginOk then Exec(onErr, inTx, s)
      else
        var (s1, ok) := Exec(body, true, Store(s.committed, []));
        if ok && env.commitOk then Exec(onOk, inTx, Store(s1.committed + s1.pending, s.pending))
        else Exec(onErr, inTx, Store(s1.committed, s.pending))
  }

  // ------------------------------------------------------------ in place

  class Database<W> {
    var log: seq<W>
    constructor () ensures log == [] { log := []; }
  }

  class Tx<W> {
    var pending: seq<W>
    constructor () ensures pending == [] { pending := []; }
  }

  class TxManager<W> {
    const pool: Database<W>

    constructor (pool: Database<W>) ensures this.pool == pool { this.pool := pool; }

    /** Everything a context can reach: the pool and, inside a unit of work, its transaction. */
    ghost function View(ctx: Tx?<W>): Store<W>
      reads pool, ctx
    {
      Store(pool.log, if ctx == null then [] else ctx.pending)
    }

    /** WithinTx: join the transaction on the context, or open one, run the body and commit or roll back. */
    method WithinTx(ctx: Tx?<W>, env: Env, body: Prog<W>) returns (ok: bool)
      modifies pool, ctx
      ensures (View(ctx), ok) == Exec(Within(env, body, Return(true), Return(false)), ctx != null, old(View(ctx)))
      decreases body, 1
    {
      if ctx != null {
        ok := Run(ctx, body);
        return;
      }
      if !env.beginOk { return false; }
      var tx := new Tx<W>();
      ok := Run(tx, body);
      if !ok { return; }
      if !env.commitOk { return false; }
      pool.log := pool.log + tx.pending;
    }

    /** Runs a body. Repositories reach the store through Querier: the context's transaction if there is one. */
    method Run(ctx: Tx?<W>, p: Prog<W>) returns (ok: bool)
      modifies pool, ctx
      ensures (View(ctx), ok) == Exec(p, ctx != null, old(View(ctx)))
      decreases p, 0
    {
      match p
      case Return(r) => return r;
      case Write(op, joins, rest) =>
        if ctx != null && joins {
          ctx.pending := ctx.pending + [op];
        } else {
          pool.log := pool.log + [op];
        }
        ok := Run(ctx, rest);
      case Within(env, body, onOk, onErr) =>
        var inner := WithinTx(ctx, env, body);
        if inner { ok := Run(ctx, onOk); } else { ok := Run(ctx, onErr); }
    }
  }

  // ------------------------------------------------------------- flattening

  /** Body b, going on to onOk where it would return nil and to onErr where it would return an error. */
  function Splice<W>(b: Prog<W>, onOk: Prog<W>, onErr: Prog<W>): Prog<W> {
    match b
    case Return(ok) => if ok then onOk else onErr
    case Write(op, joins, rest) => Write(op, joins, Splice(rest, onOk, onErr))
    case Within(env, body, k, e) => Within(env, body, Splice(k, onOk, onErr), Splice(e, onOk, onErr))
  }

  /** p with every nested unit of work written out in its place. */
  function Inline<W>(p: Prog<W>): Prog<W> {
    match p
    case Return(_) => p
    case Write(op, joins, rest) => Write(op, joins, Inline(rest))
    case Within(_, body, onOk, onErr) => Splice(Inline(body), Inline(onOk), Inline(onErr))
  }

  predicate Flat<W>(p: Prog<W>) {
    match p
    case Return(_) => true
    case Write(_, _, rest) => Flat(rest)
    case Within(_, _, _, _) => false
  }

  lemma {:induction false} SpliceRuns<W>(b: Prog<W>, onOk: Prog<W>, onErr: Prog<W>, s: Store<W>)
    ensures Exec(Splice(b, onOk, onErr), true, s) ==
      var (s1, ok) := Exec(b, true, s); Exec(if ok then onOk else onErr, true, s1)
  {
    match b
    case Return(_) =>
    case Write(op, joins, rest) =>
      SpliceRuns(rest, onOk, onErr,
        if joins then s.(pending := s.pending + [op]) else s.(committed := s.committed + [op]));
    case Within(env, body, k, e) =>
      var (s1, ok) := Exec(body, true, s);
      SpliceRuns(if ok then k else e, onOk, onErr, s1);
  }

  lemma {:induction false} SpliceFlat<W>(b: Prog<W>, onOk: Prog<W>, onErr: Prog<W>)
    requires Flat(b) && Flat(onOk) && Flat(onErr)
    ensures Flat(Splice(b, onOk, onErr))
  {
    if b.Write? { SpliceFlat(b.rest, onOk, onErr); }
  }

  /** Inside a transaction, a tree of nested units runs exactly like the flat body it is written out to. */
  lemma {:induction false} NestedIsInlined<W>(p: Prog<W>, s: Store<W>)
    ensures Flat(Inline(p)) && Exec(p, true, s) == Exec(Inline(p), true, s)
  {
    match p
    case Return(_) =>
    case Write(op, joins, rest) =>
      NestedIsInlined(rest, if joins then s.(pending := s.pending + [op]) else s.(committed := s.committed + [op]));
    case Within(env, body, onOk, onErr) =>
      NestedIsInlined(body, s);
      var (s1, ok) := Exec(body, true, s);
      NestedIsInlined(onOk, s1);
      NestedIsInlined(onErr, s1);
      SpliceFlat(Inline(body), Inline(onOk), Inline(onErr));
      SpliceRuns(Inline(body), Inline(onOk), Inline(onErr), s);
  }

  /** Main result. Running an outermost unit of work equals running it with all inner bodies written out. */
  lemma OutermostOwnsEverything<W>(env: Env, body: Prog<W>, onOk: Prog<W>, onErr: Prog<W>, s: Store<W>)
    ensures Exec(Within(env, body, onOk, onErr), false, s) == Exec(Within(env, Inline(body), onOk, onErr), false, s)
    ensures Flat(Inline(body))
  {
    NestedIsInlined(body, Store(s.committed, []));
  }

  // ------------------------------------------------------- all or nothing

  /** A performed write. */
  datatype Done<W> = Done(op: W, joins: bool)

  /** The writes a body performs, in order, and whether it returns nil. Nested units do not commit on their own, so the
      path through a body does not depend on the database. */
  function Trace<W>(p: Prog<W>): (seq<Done<W>>, bool) {
    match p
    case Return(ok) => ([], ok)
    case Write(op, joins, rest) => var (ws, ok) := Trace(rest); ([Done(op, joins)] + ws, ok)
    case Within(_, body, onOk, onErr) =>
      var (ws, ok) := Trace(body);
      var (vs, ok') := Trace(if ok then onOk else onErr);
      (ws + vs, ok')
  }

  /** The operations of the writes that join (or do not join) the transaction, in order. */
  function Ops<W>(ws: seq<Done<W>>, joins: bool): seq<W> {
    if ws == [] then [] else (if ws[0].joins == joins then [ws[0].op] else []) + Ops(ws[1..], joins)
  }

  lemma {:induction false} OpsAppend<W>(a: seq<Done<W>>, b: seq<Done<W>>, joins: bool)
    ensures Ops(a + b, joins) == Ops(a, joins) + Ops(b, joins)
  {
    if a == [] {
      assert a + b == b;
    } else {
      OpsAppend(a[1..], b, joins);
      assert (a + b)[1..] == a[1..] + b && (a + b)[0] == a[0];
      var head := if a[0].joins == joins then [a[0].op] else [];
      assert head + (Ops(a[1..], joins) + Ops(b, joins)) == head + Ops(a[1..], joins) + Ops(b, joins);
    }
  }

  /** The store once the performed writes ws have gone where they go. */
  function After<W>(s: Store<W>, ws: seq<Done<W>>): Store<W> {
    Store(s.committed + Ops(ws, false), s.pending + Ops(ws, true))
  }

  lemma AfterAppend<W>(s: Store<W>, ws: seq<Done<W>>, vs: seq<Done<W>>)
    ensures After(After(s, ws), vs) == After(s, ws + vs)
  {
    OpsAppend(ws, vs, false);
    OpsAppend(ws, vs, true);
    Associates(s.committed, Ops(ws, false), Ops(vs, false));
    Associates(s.pending, Ops(ws, true), Ops(vs, true));
  }

  lemma AfterOne<W>(s: Store<W>, op: W, joins: bool)
    ensures After(s, [Done(op, joins)]) ==
      if joins then s.(pending := s.pending + [op]) else s.(committed := s.committed + [op])
  {
    assert [Done(op, joins)][1..] == [];
    assert Ops([Done(op, joins)], joins) == [op] && Ops([Done(op, joins)], !joins) == [];
  }

  lemma {:induction false} ExecIsTrace<W>(p: Prog<W>, s: Store<W>)
    ensures var (ws, ok) := Trace(p); Exec(p, true, s) == (After(s, ws), ok)
  {
    match p
    case Return(ok) =>
      assert s.committed + [] == s.committed && s.pending + [] == s.pending;
    case Write(op, joins, rest) =>
      var t := if joins then s.(pending := s.pending + [op]) else s.(committed := s.committed + [op]);
      ExecIsTrace(rest, t);
      AfterOne(s, op, joins);
      AfterAppend(s, [Done(op, joins)], Trace(rest).0);
    case Within(env, body, onOk, onErr) =>
      ExecIsTrace(body, s);
      var (ws, ok) := Trace(body);
      var next := if ok then onOk else onErr;
      ExecIsTrace(next, After(s, ws));
      AfterAppend(s, ws, Trace(next).0);
  }

  /** The writes a unit of work leaves behind: none if it never began; else those that bypassed the transaction, and the
      joined ones, in order, exactly when the body returned nil and the commit succeeded. */
  function Left<W>(env: Env, body: Prog<W>): seq<W> {
    var (ws, ok) := Trace(body);
    if !env.beginOk then [] else Ops(ws, false) + if ok && env.commitOk then Ops(ws, true) else []
  }

  lemma Begun<W>(env: Env, body: Prog<W>, s: Store<W>)
    requires env.beginOk
    ensures var (ws, ok) := Trace(body);
      Exec(Within(env, body, Return(true), Return(false)), false, s) ==
        (s.(committed := s.committed + Ops(ws, false) + if ok && env.commitOk then Ops(ws, true) else []),
          ok && env.commitOk)
  {
    ExecIsTrace(body, Store(s.committed, []));
    var (ws, ok) := Trace(body);
    assert [] + Ops(ws, true) == Ops(ws, true);
    if !(ok && env.commitOk) { assert s.committed + Ops(ws, false) + [] == s.committed + Ops(ws, false); }
  }

  lemma NeverBegun<W>(env: Env, body: Prog<W>, s: Store<W>)
    requires !env.beginOk
    ensures Exec(Within(env, body, Return(true), Return(false)), false, s) == (s, false)
  {
  }

  lemma UnitOfWork<W>(env: Env, body: Prog<W>, s: Store<W>)
    ensures Exec(Within(env, body, Return(true), Return(false)), false, s) ==
      (s.(committed := s.committed + Left(env, body)), env.beginOk && Trace(body).1 && env.commitOk)
  {
    if env.beginOk {
      Begun(env, body, s);
      var (ws, ok) := Trace(body);
      Associates(s.committed, Ops(ws, false), if ok && env.commitOk then Ops(ws, true) else []);
    } else {
      NeverBegun(env, body, s);
      assert s.committed + [] == s.committed;
    }
  }

  predicate AllJoin<W>(p: Prog<W>) {
    match p
    case Return(_) => true
    case Write(_, joins, rest) => joins && AllJoin(rest)
    case Within(_, body, onOk, onErr) => AllJoin(body) && AllJoin(onOk) && AllJoin(onErr)
  }

  lemma {:induction false} JoinedTrace<W>(p: Prog<W>)
    requires AllJoin(p)
    ensures forall i :: 0 <= i < |Trace(p).0| ==> Trace(p).0[i].joins
  {
    match p
    case Return(_) =>
    case Write(_, _, rest) => JoinedTrace(rest);
    case Within(_, body, onOk, onErr) => JoinedTrace(body); JoinedTrace(onOk); JoinedTrace(onErr);
  }

  lemma {:induction false} NoneBypass<W>(ws: seq<Done<W>>)
    requires forall i :: 0 <= i < |ws| ==> ws[i].joins
    ensures Ops(ws, false) == [] && |Ops(ws, true)| == |ws|
    ensures forall i :: 0 <= i < |ws| ==> Ops(ws, true)[i] == ws[i].op
  {
    if ws != [] { NoneBypass(ws[1..]); }
  }

  /** When every repository joins, a unit of work is all or nothing: each performed write, in order, or no change at
      all. */
  lemma AllOrNothing<W>(env: Env, body: Prog<W>, s: Store<W>)
    requires AllJoin(body)
    ensures var (t, ok) := Exec(Within(env, body, Return(true), Return(false)), false, s);
      && t == (if ok then s.(committed := s.committed + Performed(body)) else s)
      && (ok <==> env.beginOk && Trace(body).1 && env.commitOk)
  {
    UnitOfWork(env, body, s);
    if env.beginOk { JoinedLeft(env, body); }
    assert s.committed + [] == s.committed;
  }

  lemma JoinedLeft<W>(env: Env, body: Prog<W>)
    requires AllJoin(body) && env.beginOk
    ensures Left(env, body) == if Trace(body).1 && env.commitOk then Performed(body) else []
  {
    JoinedTrace(body);
    NoneBypass(Trace(body).0);
    PerformedAre(Trace(body).0);
  }

  /** The operations a body performs, in order. */
  function Performed<W>(p: Prog<W>): seq<W> {
    var ws := Trace(p).0;
    seq(|ws|, i requires 0 <= i < |ws| => ws[i].op)
  }

  lemma PerformedAre<W>(ws: seq<Done<W>>)
    requires forall i :: 0 <= i < |ws| ==> ws[i].joins
    ensures Ops(ws, true) == seq(|ws|, i requires 0 <= i < |ws| => ws[i].op)
  {
  }

  /** No write of these bypassed the transaction. */
  ghost predicate AllJoined<W>(ws: seq<Done<W>>) { forall i :: 0 <= i < |ws| ==> ws[i].joins }

  /** A unit of work that fails, wherever it does, leaves the store unchanged if and only if it never began or none of
      the writes it performed bypassed the transaction. */
  lemma RollbackIsExact<W>(env: Env, body: Prog<W>, s: Store<W>)
    requires !Exec(Within(env, body, Return(true), Return(false)), false, s).1
    ensures Exec(Within(env, body, Return(true), Return(false)), false, s).0 == s <==>
      !env.beginOk || AllJoined(Trace(body).0)
  {
    UnitOfWork(env, body, s);
    assert s.committed + [] == s.committed;
    if env.beginOk { FailedLeft(env, body); }
    if Left(env, body) != [] { assert |s.committed + Left(env, body)| > |s.committed|; }
  }

  lemma FailedLeft<W>(env: Env, body: Prog<W>)
    requires env.beginOk && !(Trace(body).1 && env.commitOk)
    ensures Left(env, body) == [] <==> AllJoined(Trace(body).0)
  {
    var ws := Trace(body).0;
    BypassExactly(ws);
    assert Ops(ws, false) + [] == Ops(ws, false);
    assert Left(env, body) == Ops(ws, false);
  }

  lemma BypassExactly<W>(ws: seq<Done<W>>)
    ensures Ops(ws, false) == [] <==> AllJoined(ws)
  {
    if AllJoined(ws) {
      NoneBypass(ws);
    } else {
      SomeBypass(ws);
    }
  }

  lemma {:induction false} SomeBypass<W>(ws: seq<Done<W>>)
    requires exists i :: 0 <= i < |ws| && !ws[i].joins
    ensures Ops(ws, false) != []
  {
    if ws[0].joins {
      var i :| 0 <= i < |ws| && !ws[i].joins;
      assert !ws[1..][i - 1].joins;
      SomeBypass(ws[1..]);
    }
  }
}

/** MigrateUp as a resumable procedure: one run may stop at any point, and what the next run finds is what the
    last one committed. */
module MigrateRuns {
  import opened Options
  import opened Text
  import opened Migrations
  import opened Sequences

  datatype File = File(name: string, src: string)

  /** A file as the runner sees it: its name, and whether its Up section has anything in it. */
  datatype Item = Item(name: string, runs: bool)

  /** Whether a file's text has something to execute. The runner uses HasUpSection. */
  type Reader = string -> bool

  predicate HasUpSection(src: string) { !Blank(ExtractGooseUp(src)) }

  function PlanWith(files: seq<File>, hasUp: Reader): (items: seq<Item>)
    ensures |items| == |files| && forall i :: 0 <= i < |files| ==> items[i] == Item(files[i].name, hasUp(files[i].src))
  {
    seq(|files|, i requires 0 <= i < |files| => Item(files[i].name, hasUp(files[i].src)))
  }

  /** The embedded files as the runner sees them. */
  function Plan(files: seq<File>): seq<Item> { PlanWith(files, HasUpSection) }

  /** A file counts as runnable exactly if its executed text has something other than space in it. */
  lemma RunsExactly(files: seq<File>, i: nat)
    requires i < |files|
    ensures var up := ExtractGooseUp(files[i].src);
      Plan(files)[i].name == files[i].name && (Plan(files)[i].runs <==> exists j :: 0 <= j < |up| && !IsSpace(up[j]))
  {
    TrimSpaceEmpty(ExtractGooseUp(files[i].src));
  }

  /** The database as far as the runner can tell: the bookkeeping table, and the files whose Up section took effect, in
      the order it did. The schema is a function of that order and of the schema the database started with. */
  datatype Db = Db(tableExists: bool, recorded: set<string>, executed: seq<string>)

  /** Whether the `organizations` table exists once these files have taken effect. */
  type Schema = seq<string> -> bool

  predicate DistinctNames(files: seq<Item>) {
    forall i, j :: 0 <= i < j < |files| ==> files[i].name != files[j].name
  }

  /** What may go wrong while one file is applied. A crash is one of these too: before the commit nothing of the
      transaction stays, at the commit it may or may not be durable. */
  datatype Fault = Fine | BeginFails | ExecFails | RecordFails | CommitFails(durable: bool)

  /** One run's circumstances: whether the table could be created and read, the rows the listing yielded, after how many
      bootstrap rows it stopped (None: it did not), and the fault at each file. */
  datatype Script = Script(tableOk: bool, listOk: bool, seen: set<string>, bootStop: Stop, faults: seq<Fault>)
  datatype Stop = Never | AfterRows(n: nat)

  ghost predicate Fits(sc: Script, db: Db, files: seq<Item>) {
    sc.seen <= db.recorded && |sc.faults| == |files|
  }

  function Names(files: seq<Item>): (names: set<string>)
    ensures forall n :: n in names <==> exists i :: 0 <= i < |files| && files[i].name == n
  {
    set i | 0 <= i < |files| :: files[i].name
  }

  /** The transaction for one file: its SQL and its record together, or neither. Recording a name twice violates the
      primary key and rolls back. */
  function ApplyOne(db: Db, name: string, fault: Fault): (Db, bool) {
    var done := db.(executed := db.executed + [name], recorded := db.recorded + {name});
    if fault.BeginFails? || fault.ExecFails? || fault.RecordFails? || name in db.recorded then (db, false)
    else if fault.CommitFails? then (if fault.durable then done else db, false)
    else (done, true)
  }

  function ApplyFrom(db: Db, files: seq<Item>, i: nat, applied: set<string>, faults: seq<Fault>): (Db, bool)
    requires i <= |files| == |faults|
    decreases |files| - i
  {
    if i == |files| then (db, true)
    else if files[i].name in applied || !files[i].runs then ApplyFrom(db, files, i + 1, applied, faults)
    else
      var (db', ok) := ApplyOne(db, files[i].name, faults[i]);
      if ok then ApplyFrom(db', files, i + 1, applied, faults) else (db', false)
  }

  predicate BootstrapFires(seen: set<string>, db: Db, orgs: Schema) { seen == {} && orgs(db.executed) }

  /** One run of MigrateUp. */
  function RunUp(db: Db, files: seq<Item>, orgs: Schema, sc: Script): (Db, bool)
    requires |sc.faults| == |files|
  {
    if !sc.tableOk then (db, false)
    else
      var db1 := db.(tableExists := true);
      if !sc.listOk then (db1, false)
      else if BootstrapFires(sc.seen, db1, orgs) then
        if sc.bootStop.AfterRows? && sc.bootStop.n < |files| then
          (db1.(recorded := db1.recorded + Names(files[..sc.bootStop.n])), false)
        else
          ApplyFrom(db1.(recorded := db1.recorded + Names(files)), files, 0, Names(files), sc.faults)
      else ApplyFrom(db1, files, 0, sc.seen, sc.faults)
  }

  function PendingIn(db: Db, files: seq<Item>): (out: seq<string>)
  {
    Unrecorded(files, if db.tableExists then db.recorded else {})
  }

  function Unrecorded(files: seq<Item>, applied: set<string>): seq<string> {
    if files == [] then []
    else
      Unrecorded(files[..|files| - 1], applied) +
      if files[|files| - 1].name in applied then [] else [files[|files| - 1].name]
  }

  /** These names are those of the files at these positions, in the files' order. */
  ghost predicate InOrder(files: seq<Item>, names: seq<string>, at: seq<nat>) {
    && |at| == |names| && (forall k :: 0 <= k < |at| ==> at[k] < |files| && names[k] == files[at[k]].name)
    && forall j, k :: 0 <= j < k < |at| ==> at[j] < at[k]
  }

  /** Pending are, in order, precisely the files whose names are not recorded; without a table all of them. */
  ghost predicate PendingAt(db: Db, files: seq<Item>, names: seq<string>, at: seq<nat>) {
    && InOrder(files, names, at)
    && forall i :: 0 <= i < |files| ==> (i in at <==> !db.tableExists || files[i].name !in db.recorded)
  }

  lemma PendingPositions(db: Db, files: seq<Item>) returns (at: seq<nat>)
    ensures PendingAt(db, files, PendingIn(db, files), at)
  {
    at := UnrecordedPositions(files, if db.tableExists then db.recorded else {});
  }

  lemma InOrderOneMore(files: seq<Item>, names: seq<string>, at: seq<nat>, n: nat)
    requires n < |files| && InOrder(files[..n], names, at)
    ensures InOrder(files, names, at) && InOrder(files, names + [files[n].name], at + [n])
  {
    forall k | 0 <= k < |at| ensures at[k] < n && names[k] == files[at[k]].name { }
  }

  lemma {:induction false} UnrecordedPositions(files: seq<Item>, applied: set<string>) returns (at: seq<nat>)
    ensures InOrder(files, Unrecorded(files, applied), at)
    ensures forall i :: 0 <= i < |files| ==> (i in at <==> files[i].name !in applied)
  {
    if files == [] { return []; }
    var n := |files| - 1;
    var init := UnrecordedPositions(files[..n], applied);
    InOrderOneMore(files, Unrecorded(files[..n], applied), init, n);
    at := if files[n].name in applied then init else init + [n];
    if files[n].name in applied { assert Unrecorded(files, applied) == Unrecorded(files[..n], applied); }
    forall i | 0 <= i < |files| ensures i in at <==> files[i].name !in applied {
      if i < n { assert files[..n][i] == files[i]; }
    }
  }

  // -------------------------------------------------------------- in place

  class Database {
    var tableExists: bool
    var recorded: set<string>
    var executed: seq<string>

    constructor () ensures Abs() == Db(false, {}, []) { tableExists, recorded, executed := false, {}, []; }

    ghost function Abs(): Db reads this { Db(tableExists, recorded, executed) }

    /** Begin, execute, record, commit. */
    method ApplyFile(name: string, fault: Fault) returns (ok: bool)
      modifies this
      ensures (Abs(), ok) == ApplyOne(old(Abs()), name, fault)
    {
      if fault.BeginFails? { return false; }
      var txExecuted, txRecorded := executed, recorded;
      if fault.ExecFails? { return false; }
      txExecuted := txExecuted + [name];
      if fault.RecordFails? || name in txRecorded { return false; }
      txRecorded := txRecorded + {name};
      if fault.CommitFails? {
        if fault.durable { executed, recorded := txExecuted, txRecorded; }
        return false;
      }
      executed, recorded := txExecuted, txRecorded;
      return true;
    }

    /** One bootstrap row per file, until the database stops answering. */
    method Bootstrap(items: seq<Item>, stop: Stop) returns (ok: bool)
      modifies this`recorded
      ensures ok <==> !(stop.AfterRows? && stop.n < |items|)
      ensures recorded == old(recorded) + Names(if ok then items else items[..stop.n])
    {
      for i := 0 to |items|
        invariant recorded == old(recorded) + Names(items[..i])
        invariant stop.AfterRows? ==> i <= stop.n
      {
        if stop.AfterRows? && stop.n == i { return false; }
        recorded := recorded + {items[i].name};
        assert items[..i + 1] == items[..i] + [items[i]];
      }
      assert items[..|items|] == items;
      return true;
    }

    /** Applies, in order, every file not in `applied` whose Up section is not blank. */
    method ApplyAll(files: seq<File>, hasUp: Reader, applied: set<string>, faults: seq<Fault>) returns (ok: bool)
      requires |faults| == |files|
      modifies this
      ensures (Abs(), ok) == ApplyFrom(old(Abs()), PlanWith(files, hasUp), 0, applied, faults)
    {
      ghost var items := PlanWith(files, hasUp);
      for i := 0 to |files|
        invariant ApplyFrom(old(Abs()), items, 0, applied, faults) == ApplyFrom(Abs(), items, i, applied, faults)
      {
        if files[i].name in applied || !hasUp(files[i].src) { continue; }
        var applies := ApplyFile(files[i].name, faults[i]);
        if !applies { return false; }
      }
      return true;
    }

    method MigrateUp(files: seq<File>, orgs: Schema, sc: Script) returns (ok: bool)
      requires |sc.faults| == |files|
      modifies this
      ensures (Abs(), ok) == RunUp(old(Abs()), Plan(files), orgs, sc)
    {
      ok := MigrateUpWith(files, HasUpSection, orgs, sc);
    }

    method MigrateUpWith(files: seq<File>, hasUp: Reader, orgs: Schema, sc: Script) returns (ok: bool)
      requires |sc.faults| == |files|
      modifies this
      ensures (Abs(), ok) == RunUp(old(Abs()), PlanWith(files, hasUp), orgs, sc)
    {
      if !sc.tableOk { return false; }
      tableExists := true;
      if !sc.listOk { return false; }
      if sc.seen == {} && orgs(executed) {
        ok := Bootstrap(PlanWith(files, hasUp), sc.bootStop);
        if ok { ok := ApplyAll(files, hasUp, Names(PlanWith(files, hasUp)), sc.faults); }
      } else {
        ok := ApplyAll(files, hasUp, sc.seen, sc.faults);
      }
    }

    /** `tableAsked` and `listed` say whether the two queries were answered to the end; without a table there is
        nothing to list. */
    method PendingMigrations(items: seq<Item>, tableAsked: bool, listed: bool) returns (out: Option<seq<string>>)
      ensures out.None? <==> !tableAsked || (tableExists && !listed)
      ensures out.Some? ==> out.value == PendingIn(Abs(), items)
      ensures out.Some? ==> exists at :: PendingAt(Abs(), items, out.value, at)
    {
      if !tableAsked || (tableExists && !listed) { return None; }
      var applied := if tableExists then recorded else {};
      var pending: seq<string> := [];
      for i := 0 to |items|
        invariant pending == Unrecorded(items[..i], applied)
      {
        if items[i].name !in applied { pending := pending + [items[i].name]; }
        assert items[..i + 1][..i] == items[..i];
      }
      assert items[..|items|] == items;
      ghost var at := PendingPositions(Abs(), items);
      return Some(pending);
    }
  }

  // ---------------------------------------------------------------- safety

  /** The names of the files with something to execute, in order. */
  function Runnable(files: seq<Item>): seq<string> {
    if files == [] then []
    else Runnable(files[..|files| - 1]) + if files[|files| - 1].runs then [files[|files| - 1].name] else []
  }

  function Elements(s: seq<string>): set<string> { set x | x in s }

  /** A database this runner built: the files executed are the runnable ones among the first k, each once and in order,
      and exactly those are recorded. */
  ghost predicate BuiltTo(db: Db, files: seq<Item>, k: nat) {
    k <= |files| && db.executed == Runnable(files[..k]) && db.recorded == Elements(db.executed)
  }

  ghost predicate Built(db: Db, files: seq<Item>) { exists k: nat :: BuiltTo(db, files, k) }

  lemma {:induction false} RunnableAreNames(files: seq<Item>, n: string)
    ensures n in Runnable(files) <==> exists i :: 0 <= i < |files| && files[i].name == n && files[i].runs
  {
    if files != [] {
      var init, last := files[..|files| - 1], files[|files| - 1];
      RunnableAreNames(init, n);
      if i :| 0 <= i < |files| && files[i].name == n && files[i].runs {
        if i < |init| { assert init[i] == files[i]; }
      }
      if i :| 0 <= i < |init| && init[i].name == n && init[i].runs { assert files[i] == init[i]; }
      if n in Runnable(files) && n !in Runnable(init) { assert files[|files| - 1].name == n; }
    }
  }

  /** The next file's name is recorded by nothing before it. */
  lemma NotYetRecorded(files: seq<Item>, k: nat)
    requires DistinctNames(files) && k < |files|
    ensures files[k].name !in Runnable(files[..k])
  {
    RunnableAreNames(files[..k], files[k].name);
  }

  lemma RunnableStep(files: seq<Item>, k: nat)
    requires k < |files|
    ensures Runnable(files[..k + 1]) == Runnable(files[..k]) + if files[k].runs then [files[k].name] else []
  {
    assert files[..k + 1][..k] == files[..k];
  }

  /** Position i of a walk over a database built to k: still inside the built part, or past it with nothing runnable in
      between. */
  ghost predicate UpTo(files: seq<Item>, k: nat, i: nat) {
    k <= |files| && i <= |files| && (i <= k || Runnable(files[..i]) == Runnable(files[..k]))
  }

  lemma SkipKeepsPlace(db: Db, files: seq<Item>, k: nat, i: nat, applied: set<string>)
    requires DistinctNames(files) && BuiltTo(db, files, k) && applied <= db.recorded && UpTo(files, k, i) && i < |files|
    requires files[i].name in applied || !files[i].runs
    ensures UpTo(files, k, i + 1)
  {
    RunnableStep(files, i);
    if i >= k { OnlyEarlier(files, k, i); }
  }

  lemma InsideIsRecorded(db: Db, files: seq<Item>, k: nat, i: nat)
    requires BuiltTo(db, files, k) && i < k && files[i].runs
    ensures files[i].name in db.recorded
  {
    assert files[..k][i] == files[i];
    RunnableAreNames(files[..k], files[i].name);
  }

  lemma ApplyOneBuilds(db: Db, files: seq<Item>, k: nat, i: nat, fault: Fault)
    requires DistinctNames(files) && BuiltTo(db, files, k) && UpTo(files, k, i) && i < |files| && files[i].runs
    ensures var (db', ok) := ApplyOne(db, files[i].name, fault);
      (db' == db && !ok) || BuiltTo(db', files, i + 1)
  {
    if i < k {
      InsideIsRecorded(db, files, k, i);
    } else {
      RunnableStep(files, i);
    }
  }

  /** Walking on from file i of a database built to k: recorded files are skipped or rolled back, and each file applied
      extends the build. */
  lemma {:induction false} ApplyFromBuilds(db: Db, files: seq<Item>, k: nat, i: nat, applied: set<string>,
      faults: seq<Fault>)
      returns (k': nat)
    requires DistinctNames(files) && |faults| == |files| && UpTo(files, k, i)
    requires BuiltTo(db, files, k) && applied <= db.recorded
    ensures BuiltTo(ApplyFrom(db, files, i, applied, faults).0, files, k')
    ensures ApplyFrom(db, files, i, applied, faults).1 ==> UpTo(files, k', |files|)
    decreases |files| - i
  {
    if i == |files| {
      k' := k;
    } else if files[i].name in applied || !files[i].runs {
      SkipKeepsPlace(db, files, k, i, applied);
      k' := ApplyFromBuilds(db, files, k, i + 1, applied, faults);
    } else {
      var (db', ok) := ApplyOne(db, files[i].name, faults[i]);
      ApplyOneBuilds(db, files, k, i, faults[i]);
      if ok {
        k' := ApplyFromBuilds(db', files, i + 1, i + 1, applied, faults);
      } else {
        k' := if db' == db then k else i + 1;
      }
    }
  }

  /** A file at or after position k is not among the first k. */
  lemma OnlyEarlier(files: seq<Item>, k: nat, i: nat)
    requires DistinctNames(files) && k <= i < |files|
    ensures files[i].name !in Runnable(files[..k])
  {
    RunnableAreNames(files[..k], files[i].name);
  }

  // ------------------------------------------------------------ whole runs

  /** A listing that reached the last row. */
  ghost predicate Complete(sc: Script, db: Db) { sc.seen == db.recorded }

  /** Runs of one build, each with its own faults. A listing may be cut short, but not to nothing on a schema that has
      the organizations table. */
  ghost predicate Lawful(db: Db, files: seq<Item>, orgs: Schema, scs: seq<Script>)
    decreases |scs|
  {
    scs != [] ==>
      && Fits(scs[0], db, files) && !BootstrapFires(scs[0].seen, db, orgs)
      && Lawful(RunUp(db, files, orgs, scs[0]).0, files, orgs, scs[1..])
  }

  ghost function AfterAll(db: Db, files: seq<Item>, orgs: Schema, scs: seq<Script>): Db
    requires Lawful(db, files, orgs, scs)
    decreases |scs|
  {
    if scs == [] then db else AfterAll(RunUp(db, files, orgs, scs[0]).0, files, orgs, scs[1..])
  }

  const EMPTY_DB := Db(false, {}, [])

  lemma EmptyIsBuilt(files: seq<Item>)
    ensures BuiltTo(EMPTY_DB, files, 0)
  {
  }

  /** On a schema this runner built from an empty database, a complete listing never reaches the bootstrap branch. */
  lemma BootstrapNeverFires(db: Db, files: seq<Item>, orgs: Schema)
    requires Built(db, files) && !orgs([])
    ensures !BootstrapFires(db.recorded, db, orgs)
  {
    if db.executed != [] { assert db.executed[0] in db.recorded; }
  }

  lemma RunBuilds(db: Db, files: seq<Item>, orgs: Schema, sc: Script, k: nat) returns (k': nat)
    requires DistinctNames(files) && BuiltTo(db, files, k) && Fits(sc, db, files) && !BootstrapFires(sc.seen, db, orgs)
    ensures BuiltTo(RunUp(db, files, orgs, sc).0, files, k')
    ensures RunUp(db, files, orgs, sc).1 ==> UpTo(files, k', |files|)
  {
    k' := k;
    var db1 := db.(tableExists := true);
    if sc.tableOk && sc.listOk { k' := ApplyFromBuilds(db1, files, k, 0, sc.seen, sc.faults); }
  }

  lemma {:induction false} AllRunsBuild(db: Db, files: seq<Item>, orgs: Schema, scs: seq<Script>)
    requires DistinctNames(files) && Built(db, files) && Lawful(db, files, orgs, scs)
    ensures Built(AfterAll(db, files, orgs, scs), files)
    decreases |scs|
  {
    if scs != [] {
      var k: nat :| BuiltTo(db, files, k);
      var k' := RunBuilds(db, files, orgs, scs[0], k);
      AllRunsBuild(RunUp(db, files, orgs, scs[0]).0, files, orgs, scs[1..]);
    }
  }

  /** At every instant a file's SQL took effect exactly when its name is recorded, and no file's twice. */
  lemma BuiltIsConsistent(db: Db, files: seq<Item>)
    requires DistinctNames(files) && Built(db, files)
    ensures forall n :: n in db.executed <==> n in db.recorded
    ensures forall i, j :: 0 <= i < j < |db.executed| ==> db.executed[i] != db.executed[j]
  {
    var k: nat :| BuiltTo(db, files, k);
    assert forall a, b :: 0 <= a < b < k ==> files[..k][a].name == files[a].name && files[..k][b].name == files[b].name;
    RunnableDistinct(files[..k]);
  }

  lemma {:induction false} RunnableDistinct(files: seq<Item>)
    requires DistinctNames(files)
    ensures forall i, j :: 0 <= i < j < |Runnable(files)| ==> Runnable(files)[i] != Runnable(files)[j]
  {
    if files != [] {
      RunnableDistinct(files[..|files| - 1]);
      NotYetRecorded(files, |files| - 1);
    }
  }

  /** Main result. From an empty database, any sequence of runs that fail or crash anywhere, some of whose listings
      may be cut short, followed by one that succeeds, executes each runnable file exactly once, in order, and records
      exactly those: the outcome of one uninterrupted run. */
  lemma ResumedEqualsUninterrupted(files: seq<Item>, orgs: Schema, scs: seq<Script>, last: Script)
    requires DistinctNames(files) && Lawful(EMPTY_DB, files, orgs, scs)
    requires var db := AfterAll(EMPTY_DB, files, orgs, scs);
      Fits(last, db, files) && !BootstrapFires(last.seen, db, orgs) && RunUp(db, files, orgs, last).1
    ensures RunUp(AfterAll(EMPTY_DB, files, orgs, scs), files, orgs, last).0 ==
      Db(true, Elements(Runnable(files)), Runnable(files))
  {
    EmptyIsBuilt(files);
    AllRunsBuild(EMPTY_DB, files, orgs, scs);
    var db := AfterAll(EMPTY_DB, files, orgs, scs);
    var k: nat :| BuiltTo(db, files, k);
    var k' := RunBuilds(db, files, orgs, last, k);
    TableStays(db.(tableExists := true), files, 0, last.seen, last.faults);
    UpToEnd(files, k');
  }

  lemma UpToEnd(files: seq<Item>, k: nat)
    requires UpTo(files, k, |files|)
    ensures Runnable(files[..k]) == Runnable(files)
  {
    assert files[..|files|] == files;
  }

  lemma {:induction false} TableStays(db: Db, files: seq<Item>, i: nat, applied: set<string>, faults: seq<Fault>)
    requires i <= |files| == |faults|
    ensures ApplyFrom(db, files, i, applied, faults).0.tableExists == db.tableExists
    decreases |files| - i
  {
    if i < |files| {
      if files[i].name in applied || !files[i].runs {
        TableStays(db, files, i + 1, applied, faults);
      } else {
        TableStays(ApplyOne(db, files[i].name, faults[i]).0, files, i + 1, applied, faults);
      }
    }
  }

  function Blanks(files: seq<Item>): seq<string> {
    if files == [] then []
    else Blanks(files[..|files| - 1]) + if files[|files| - 1].runs then [] else [files[|files| - 1].name]
  }

  /** After a run that succeeded, what still counts as pending is exactly the files with a blank Up section: nothing
      ever records those. */
  lemma {:induction false} PendingAreBlank(files: seq<Item>, all: seq<Item>)
    requires DistinctNames(all) && files <= all
    ensures Unrecorded(files, Elements(Runnable(all))) == Blanks(files)
  {
    if files != [] {
      var last := files[|files| - 1];
      PendingAreBlank(files[..|files| - 1], all);
      RunnableAreNames(all, last.name);
      assert all[|files| - 1] == last;
    }
  }

  /** Those of the names that are in the set, in order. */
  function Kept(names: seq<string>, these: set<string>): seq<string> {
    if names == [] then []
    else Kept(names[..|names| - 1], these) + if names[|names| - 1] in these then [names[|names| - 1]] else []
  }

  lemma KeptOneMore(names: seq<string>, n: string, these: set<string>)
    ensures Kept(names + [n], these) == Kept(names, these) + if n in these then [n] else []
  {
    assert (names + [n])[..|names|] == names;
  }

  lemma PendingStep(files: seq<Item>, p: nat, applied: set<string>, these: set<string>)
    requires p < |files|
    ensures Kept(Unrecorded(files[..p + 1], applied), these) == Kept(Unrecorded(files[..p], applied), these) +
      if files[p].name !in applied && files[p].name in these then [files[p].name] else []
  {
    var before := Unrecorded(files[..p], applied);
    assert files[..p + 1][..p] == files[..p];
    if files[p].name in applied {
      assert Unrecorded(files[..p + 1], applied) == before + [] == before;
    } else {
      KeptOneMore(before, files[p].name, these);
    }
  }

  /** Of the first p files, those that are runnable and not among the runnable of the first k. */
  ghost function RestOf(files: seq<Item>, k: nat, p: nat): seq<string>
    requires k <= |files| && p <= |files|
  {
    Kept(Unrecorded(files[..p], Elements(Runnable(files[..k]))), Elements(Runnable(files)))
  }

  lemma RestStep(files: seq<Item>, k: nat, p: nat)
    requires DistinctNames(files) && k <= |files| && p < |files|
    ensures RestOf(files, k, p + 1) == RestOf(files, k, p) + if files[p].runs && k <= p then [files[p].name] else []
  {
    PendingStep(files, p, Elements(Runnable(files[..k])), Elements(Runnable(files)));
    NameIsRunnable(files, p);
    if p < k { InsideOrBlank(files, k, p); } else { OnlyEarlier(files, k, p); }
  }

  lemma {:induction false} KeptIsRest(files: seq<Item>, k: nat, p: nat)
    requires DistinctNames(files) && k <= |files| && p <= |files|
    ensures p <= k ==> RestOf(files, k, p) == []
    ensures k <= p ==> Runnable(files[..p]) == Runnable(files[..k]) + RestOf(files, k, p)
    decreases p
  {
    if p > 0 {
      var q: nat := p - 1;
      KeptIsRest(files, k, q);
      RestStep(files, k, q);
      RunnableStep(files, q);
      if q >= k {
        var more := if files[q].runs then [files[q].name] else [];
        Associates(Runnable(files[..k]), RestOf(files, k, q), more);
      }
    }
  }

  lemma NameIsRunnable(files: seq<Item>, i: nat)
    requires DistinctNames(files) && i < |files|
    ensures files[i].name in Runnable(files) <==> files[i].runs
  {
    RunnableAreNames(files, files[i].name);
  }

  lemma InsideOrBlank(files: seq<Item>, k: nat, i: nat)
    requires DistinctNames(files) && i < k <= |files|
    ensures files[i].name in Runnable(files[..k]) <==> files[i].runs
  {
    assert files[..k][i] == files[i];
    NameIsRunnable(files[..k], i);
  }

  /** A walk with nothing going wrong, that knows what is recorded, gets to the end. */
  lemma {:induction false} FineWalkSucceeds(db: Db, files: seq<Item>, i: nat, applied: set<string>, faults: seq<Fault>)
    requires DistinctNames(files) && i <= |files| == |faults| && forall j :: 0 <= j < |faults| ==> faults[j].Fine?
    requires forall j :: i <= j < |files| && files[j].name in db.recorded ==> files[j].name in applied
    ensures ApplyFrom(db, files, i, applied, faults).1
    decreases |files| - i
  {
    if i < |files| {
      if files[i].name in applied || !files[i].runs {
        FineWalkSucceeds(db, files, i + 1, applied, faults);
      } else {
        FineWalkSucceeds(ApplyOne(db, files[i].name, faults[i]).0, files, i + 1, applied, faults);
      }
    }
  }

  /** Main result on the listing: on any database this runner built, what it calls pending is what its next run, if
      nothing goes wrong, then executes, leaving out the files with nothing to execute. */
  lemma PendingIsWhatRunsNext(db: Db, files: seq<Item>, orgs: Schema, sc: Script)
    requires DistinctNames(files) && Built(db, files) && (db.recorded != {} ==> db.tableExists) && !orgs([])
    requires sc.tableOk && sc.listOk && Fits(sc, db, files) && Complete(sc, db)
    requires forall j :: 0 <= j < |files| ==> sc.faults[j].Fine?
    ensures var (db', ok) := RunUp(db, files, orgs, sc);
      ok && db'.executed == db.executed + Kept(PendingIn(db, files), Elements(Runnable(files)))
  {
    var k: nat :| BuiltTo(db, files, k);
    BootstrapNeverFires(db, files, orgs);
    FineWalkSucceeds(db.(tableExists := true), files, 0, sc.seen, sc.faults);
    var k' := RunBuilds(db, files, orgs, sc, k);
    UpToEnd(files, k');
    assert files[..|files|] == files;
    KeptIsRest(files, k, |files|);
  }

  /** Over any runs from an empty database, what is recorded is in a table. */
  lemma {:induction false} RowsHaveTable(db: Db, files: seq<Item>, orgs: Schema, scs: seq<Script>)
    requires Lawful(db, files, orgs, scs) && (db.recorded != {} ==> db.tableExists)
    ensures AfterAll(db, files, orgs, scs).recorded != {} ==> AfterAll(db, files, orgs, scs).tableExists
    decreases |scs|
  {
    if scs != [] {
      TableStays(db.(tableExists := true), files, 0, scs[0].seen, scs[0].faults);
      RowsHaveTable(RunUp(db, files, orgs, scs[0]).0, files, orgs, scs[1..]);
    }
  }

  lemma {:induction false} NothingLeft(db: Db, files: seq<Item>, i: nat, faults: seq<Fault>)
    requires i <= |files| == |faults| && forall j :: 0 <= j < |files| && files[j].runs ==> files[j].name in db.recorded
    ensures ApplyFrom(db, files, i, db.recorded, faults) == (db, true)
    decreases |files| - i
  {
    if i < |files| { NothingLeft(db, files, i + 1, faults); }
  }

  /** A second run after one that succeeded succeeds and changes nothing, whatever would have gone wrong at a file. */
  lemma SecondRunIsNoOp(files: seq<Item>, orgs: Schema, sc: Script)
    requires DistinctNames(files) && !orgs([]) && sc.tableOk && sc.listOk
    requires var db := Db(true, Elements(Runnable(files)), Runnable(files)); Fits(sc, db, files) && Complete(sc, db)
    ensures var db := Db(true, Elements(Runnable(files)), Runnable(files));
      RunUp(db, files, orgs, sc) == (db, true) && PendingIn(db, files) == Blanks(files)
  {
    var db := Db(true, Elements(Runnable(files)), Runnable(files));
    assert files[..|files|] == files && BuiltTo(db, files, |files|);
    BootstrapNeverFires(db, files, orgs);
    forall j | 0 <= j < |files| && files[j].runs
      ensures files[j].name in db.recorded
    {
      RunnableAreNames(files, files[j].name);
    }
    NothingLeft(db, files, 0, sc.faults);
    PendingAreBlank(files, files);
  }

  // ------------------------------------------- where it does not hold

  lemma {:induction false} ExecutedGrows(db: Db, files: seq<Item>, i: nat, applied: set<string>, faults: seq<Fault>)
    requires i <= |files| == |faults|
    ensures db.executed <= ApplyFrom(db, files, i, applied, faults).0.executed
    decreases |files| - i
  {
    if i < |files| {
      if files[i].name in applied || !files[i].runs {
        ExecutedGrows(db, files, i + 1, applied, faults);
      } else {
        ExecutedGrows(ApplyOne(db, files[i].name, faults[i]).0, files, i + 1, applied, faults);
      }
    }
  }

  /** The listing's row error is not checked, so runs may see only some of the recorded names. That alone is harmless: a
      recorded file run again violates the primary key and rolls back. Over any such runs what was executed stays, in
      place, nothing twice. */
  lemma {:induction false} TruncatedListingsAreHarmless(db: Db, files: seq<Item>, orgs: Schema, scs: seq<Script>)
    requires DistinctNames(files) && Built(db, files) && Lawful(db, files, orgs, scs)
    ensures Built(AfterAll(db, files, orgs, scs), files) && db.executed <= AfterAll(db, files, orgs, scs).executed
    decreases |scs|
  {
    AllRunsBuild(db, files, orgs, scs);
    if scs != [] {
      var k: nat :| BuiltTo(db, files, k);
      var k' := RunBuilds(db, files, orgs, scs[0], k);
      ExecutedGrows(db.(tableExists := true), files, 0, scs[0].seen, scs[0].faults);
      TruncatedListingsAreHarmless(RunUp(db, files, orgs, scs[0]).0, files, orgs, scs[1..]);
    }
  }

  /** How many files a bootstrap marks before it stops, if it does. */
  function Marked(files: seq<Item>, stop: Stop): (m: nat)
    ensures m <= |files|
  {
    if stop.AfterRows? && stop.n < |files| then stop.n else |files|
  }

  /** The file has something to run and is recorded, and it never took effect. */
  predicate RecordedInVain(files: seq<Item>, db: Db, i: nat)
    requires i < |files|
  {
    files[i].runs && files[i].name in db.recorded && files[i].name !in db.executed
  }

  /** A listing truncated to nothing on a schema that has the organizations table is taken for a database migrated by
      other means: files are marked as applied, all of them unless the bootstrap stops. Of the marked ones exactly those
      are recorded in vain that have something to run and had not been executed before; of the others none is. */
  lemma TruncatedToNothingSkips(db: Db, files: seq<Item>, orgs: Schema, sc: Script)
    requires Built(db, files) && sc.tableOk && sc.listOk && |sc.faults| == |files|
    requires BootstrapFires(sc.seen, db, orgs)
    ensures var (t, m) := (RunUp(db, files, orgs, sc).0, Marked(files, sc.bootStop));
      && t.executed == db.executed && t.recorded == db.recorded + Names(files[..m])
      && (forall i :: 0 <= i < m ==>
            (RecordedInVain(files, t, i) <==> files[i].runs && files[i].name !in db.recorded))
      && (DistinctNames(files) ==> forall i :: m <= i < |files| ==> !RecordedInVain(files, t, i))
  {
    var m := Marked(files, sc.bootStop);
    if m == |files| {
      AllMarked(db.(tableExists := true, recorded := db.recorded + Names(files)), files, 0, sc.faults);
      assert files[..m] == files;
    }
    assert forall n :: n in db.recorded <==> n in db.executed;
    forall i | 0 <= i < m ensures files[i].name in Names(files[..m]) { assert files[..m][i] == files[i]; }
  }

  lemma {:induction false} AllMarked(db: Db, files: seq<Item>, i: nat, faults: seq<Fault>)
    requires i <= |files| == |faults|
    ensures ApplyFrom(db, files, i, Names(files), faults) == (db, true)
    decreases |files| - i
  {
    if i < |files| { AllMarked(db, files, i + 1, faults); }
  }

  /** A database migrated by other means: its schema has the organizations table and nothing is recorded. */
  const LEGACY_DB := Db(true, {}, [])

  /** The file a run that saw these names tries first. */
  ghost predicate TriesFirst(files: seq<Item>, seen: set<string>, j: int) {
    && 0 <= j < |files| && files[j].runs && files[j].name !in seen
    && forall i :: 0 <= i < j ==> !files[i].runs || files[i].name in seen
  }

  /** The file's transaction becomes durable, heard of or not. */
  predicate Lands(fault: Fault) { fault.Fine? || (fault.CommitFails? && fault.durable) }

  ghost predicate Disturbs(files: seq<Item>, n: nat, second: Script)
    requires |second.faults| == |files|
  {
    exists j :: TriesFirst(files, second.seen, j) && n <= j && Lands(second.faults[j])
  }

  /** The bootstrap is not one transaction. When it stops after n rows, the next run takes the rows it sees for what
      was applied. It executes something on a schema that already has it exactly if it gets past its listing, sees a
      row, and the first file it tries comes after the n-th and lands. */
  lemma InterruptedBootstrap(files: seq<Item>, orgs: Schema, first: Script, second: Script)
    requires DistinctNames(files) && orgs([])
    requires first.tableOk && first.listOk && first.seen == {} && |first.faults| == |files|
    requires first.bootStop.AfterRows? && first.bootStop.n < |files|
    requires Fits(second, RunUp(LEGACY_DB, files, orgs, first).0, files)
    ensures var n, db := first.bootStop.n, RunUp(LEGACY_DB, files, orgs, first).0;
      RunUp(db, files, orgs, second).0.executed != [] <==>
        second.tableOk && second.listOk && second.seen != {} && Disturbs(files, n, second)
  {
    var n, db := first.bootStop.n, RunUp(LEGACY_DB, files, orgs, first).0;
    assert db.recorded == Names(files[..n]);
    forall i | 0 <= i < |files| ensures files[i].name in db.recorded <==> i < n {
      if i < n { assert files[..n][i] == files[i]; }
      if j :| 0 <= j < n && files[..n][j].name == files[i].name { assert files[j].name == files[i].name; }
    }
    if second.tableOk && second.listOk {
      if second.seen == {} {
        AllMarked(db.(recorded := db.recorded + Names(files)), files, 0, second.faults);
      } else {
        FirstDecides(db, files, n, 0, second.seen, second.faults);
      }
    }
  }

  /** With the first n files recorded, a walk executes something exactly if the first file it tries is a later one and
      lands. */
  lemma {:induction false} FirstDecides(db: Db, files: seq<Item>, n: nat, i: nat, seen: set<string>, faults: seq<Fault>)
    requires i <= |files| == |faults| && db.executed == []
    requires forall j :: 0 <= j < |files| ==> (files[j].name in db.recorded <==> j < n)
    requires forall j :: 0 <= j < i ==> !files[j].runs || files[j].name in seen
    ensures ApplyFrom(db, files, i, seen, faults).0.executed != [] <==>
      exists j :: TriesFirst(files, seen, j) && n <= j && Lands(faults[j])
    decreases |files| - i
  {
    if i < |files| {
      if files[i].name in seen || !files[i].runs {
        FirstDecides(db, files, n, i + 1, seen, faults);
      } else {
        assert TriesFirst(files, seen, i);
        ExecutedGrows(ApplyOne(db, files[i].name, faults[i]).0, files, i + 1, seen, faults);
      }
    }
  }
}

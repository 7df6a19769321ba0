/** The department model says the default department carries no category. Creation keeps to that; an update need not. */
module DefaultCategory {
  import Text
  import opened Options
  import opened Runs
  import opened Triage
  import opened TriageSafety

  /** This step is an update of department d that went through and gave it a category. */
  ghost predicate Gives(s: State, op: Op, d: nat) {
    Updates(s, op, d) && op.category.Named?
  }

  /** This step is an update of department d that went through and cleared its category. */
  ghost predicate Clears(s: State, op: Op, d: nat) {
    Updates(s, op, d) && op.category.Empty?
  }

  ghost predicate Updates(s: State, op: Op, d: nat) {
    && op.OpUpdateDepartment? && op.id == d
    && UpdateDepartment(s, op.org, d, Trimmed(op.newName), Trimmed(op.newDescription), op.category).1 == Done
  }

  /** Giving the default department a free category succeeds like any other update. */
  lemma DefaultTakesACategory(s: State, org: nat, d: nat, c: Category)
    requires IsDefaultOf(s, org, d) && !CategoryTaken(s, org, c, Some(d))
    ensures var (s', reply) := UpdateDepartment(s, org, d, None, None, Named(Known(c)));
      reply == Done && IsDefaultOf(s', org, d) && s'.depts[d].category == Some(c)
  {
  }

  // ------------------------------------------------------- which steps touch it

  lemma CreateLeaves(s: State, org: nat, id: nat, name: string, description: string, category: CategoryField, d: nat)
    requires id !in s.depts && d in s.depts
    ensures d in CreateDepartment(s, org, id, name, description, category).0.depts
    ensures CreateDepartment(s, org, id, name, description, category).0.depts[d] == s.depts[d]
  {
  }

  lemma DeleteLeaves(s: State, org: nat, id: nat, d: nat)
    requires d in s.depts && s.depts[d].isDefault
    ensures d in DeleteDepartment(s, org, id).0.depts && DeleteDepartment(s, org, id).0.depts[d] == s.depts[d]
  {
  }

  lemma UpdateTouches(s: State, org: nat, id: nat, name: Option<string>, description: Option<string>,
      category: CategoryField, d: nat)
    requires d in s.depts
    ensures var (s', reply) := UpdateDepartment(s, org, id, name, description, category);
      && d in s'.depts && s'.depts[d].isDefault == s.depts[d].isDefault
      && s'.depts[d].category ==
           if reply.Failed? || id != d || category.Absent? then s.depts[d].category
           else if category.Empty? then None else Some(category.category.it)
  {
  }

  lemma TicketsLeave(s: State, org: nat, id: nat, named: Option<nat>, subject: string, body: string, scope: Scope)
    ensures CreateTicket(s, org, id, named, subject, body, scope).0.depts == s.depts
  {
  }

  lemma CorrectionsLeave(s: State, org: nat, id: nat, result: Option<Prediction>, p: Patch, scope: Scope, now: int)
    ensures Analyze(s, org, id, result).0.depts == s.depts
    ensures UpdateTicket(s, org, id, p, scope, now).0.depts == s.depts
  {
  }

  /** Only an update of the default department itself touches its category. */
  lemma StepTouches(s: State, op: Op, d: nat)
    requires Enabled(s, op) && d in s.depts && s.depts[d].isDefault
    ensures var s' := Step(s, op);
      && d in s'.depts && s'.depts[d].isDefault
      && (s'.depts[d].category.Some? <==> Gives(s, op, d) || (s.depts[d].category.Some? && !Clears(s, op, d)))
  {
    match op
    case OpCreateDepartment(org, id, name, description, category) =>
      CreateLeaves(s, org, id, Text.TrimSpace(name), Text.TrimSpace(description), category, d);
    case OpUpdateDepartment(org, id, name, description, category) =>
      UpdateTouches(s, org, id, Trimmed(name), Trimmed(description), category, d);
    case OpDeleteDepartment(org, id) => DeleteLeaves(s, org, id, d);
    case OpCreateTicket(org, id, named, subject, body, scope) =>
      TicketsLeave(s, org, id, named, Text.TrimSpace(subject), body, scope);
    case OpAnalyze(org, id, result) => CorrectionsLeave(s, org, id, result, NO_PATCH, OrgWide, 0);
    case OpUpdateTicket(org, id, patch, scope, now) => CorrectionsLeave(s, org, id, None, patch, scope, now);
    case OpPlace(_, _) =>
  }

  // ------------------------------------------------------------------ whole runs

  /** The state before step i of a run. */
  ghost function Before(s: State, ops: seq<Op>, i: nat): State
    requires i <= |ops|
  {
    Run(s, ops[..i])
  }

  ghost predicate GivesAt(s: State, ops: seq<Op>, i: int, d: nat) {
    0 <= i < |ops| && Gives(Before(s, ops, i), ops[i], d)
  }

  ghost predicate ClearsAt(s: State, ops: seq<Op>, i: int, d: nat) {
    0 <= i < |ops| && Clears(Before(s, ops, i), ops[i], d)
  }

  /** Every update that gave d a category was followed by one that cleared it. */
  ghost predicate AllTakenBack(s: State, ops: seq<Op>, d: nat) {
    forall i :: GivesAt(s, ops, i, d) ==> TakenBackAfter(s, ops, i, d)
  }

  ghost predicate TakenBackAfter(s: State, ops: seq<Op>, i: int, d: nat) { exists j :: i < j && ClearsAt(s, ops, j, d) }

  lemma {:induction false} RunIs(s: State, ops: seq<Op>)
    ensures Run(s, ops) == RunBy(Step, s, ops)
    decreases |ops|
  {
    if ops != [] { RunIs(Step(s, ops[0]), ops[1..]); }
  }

  lemma {:induction false} LawfulIs(s: State, ops: seq<Op>)
    ensures Lawful(s, ops) <==> LawfulBy(Enabled, Step, s, ops)
    decreases |ops|
  {
    if ops != [] { LawfulIs(Step(s, ops[0]), ops[1..]); }
  }

  lemma OneMore(s: State, ops: seq<Op>)
    requires ops != [] && Lawful(s, ops)
    ensures var init := ops[..|ops| - 1];
      && Lawful(s, init) && Enabled(Run(s, init), ops[|ops| - 1]) && Run(s, ops) == Step(Run(s, init), ops[|ops| - 1])
  {
    var init := ops[..|ops| - 1];
    LawfulIs(s, ops);
    LawfulIs(s, init);
    RunIs(s, ops);
    RunIs(s, init);
    RunByOneMore(Step, s, ops);
    LawfulByOneMore(Enabled, Step, s, ops);
  }

  lemma StaysDefault(s: State, ops: seq<Op>, d: nat)
    requires Lawful(s, ops) && d in s.depts && s.depts[d].isDefault
    ensures d in Run(s, ops).depts && Run(s, ops).depts[d].isDefault
    decreases |ops|
  {
    if ops != [] {
      StepTouches(s, ops[0], d);
      StaysDefault(Step(s, ops[0]), ops[1..], d);
    }
  }

  /** Main result: a default department that starts without a category has none at the end of a run exactly if every
      update that gave it one was followed by one that cleared it. */
  lemma {:induction false} BareExactly(s: State, ops: seq<Op>, d: nat)
    requires Lawful(s, ops) && d in s.depts && s.depts[d].isDefault && s.depts[d].category.None?
    ensures d in Run(s, ops).depts
    ensures Run(s, ops).depts[d].category.None? <==> AllTakenBack(s, ops, d)
    decreases |ops|
  {
    StaysDefault(s, ops, d);
    if ops != [] {
      var init, n := ops[..|ops| - 1], |ops| - 1;
      OneMore(s, ops);
      StaysDefault(s, init, d);
      BareExactly(s, init, d);
      StepTouches(Run(s, init), ops[n], d);
      OneMoreStep(s, ops, d);
    }
  }

  lemma OneMoreStep(s: State, ops: seq<Op>, d: nat)
    requires ops != []
    ensures var (init, n) := (ops[..|ops| - 1], |ops| - 1);
      AllTakenBack(s, ops, d) <==>
        Clears(Run(s, init), ops[n], d) || (AllTakenBack(s, init, d) && !Gives(Run(s, init), ops[n], d))
  {
    var init, n := ops[..|ops| - 1], |ops| - 1;
    LastIndex(s, ops, d);
    if Clears(Run(s, init), ops[n], d) {
      assert ClearsAt(s, ops, n, d);
      assert forall i :: GivesAt(s, ops, i, d) ==> i < n;
    } else {
      forall i: int ensures TakenBackAfter(s, ops, i, d) <==> TakenBackAfter(s, init, i, d) {
        if j :| i < j && ClearsAt(s, init, j, d) { assert ClearsAt(s, ops, j, d); }
        if j :| i < j && ClearsAt(s, ops, j, d) { assert ClearsAt(s, init, j, d); }
      }
      assert !TakenBackAfter(s, init, n, d);
      assert GivesAt(s, ops, n, d) <==> Gives(Run(s, init), ops[n], d);
    }
  }

  lemma LastIndex(s: State, ops: seq<Op>, d: nat)
    requires ops != []
    ensures var (init, n) := (ops[..|ops| - 1], |ops| - 1);
      && (forall i :: GivesAt(s, ops, i, d) <==> GivesAt(s, init, i, d) || (i == n && Gives(Run(s, init), ops[n], d)))
      && (forall i :: ClearsAt(s, ops, i, d) <==>
            ClearsAt(s, init, i, d) || (i == n && Clears(Run(s, init), ops[n], d)))
  {
    var init, n := ops[..|ops| - 1], |ops| - 1;
    forall i | 0 <= i < n ensures ops[..i] == init[..i] && ops[i] == init[i] { }
  }
}

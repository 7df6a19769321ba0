/** What every run of the triage use cases keeps, and what each of them changes. */
module TriageSafety {
  import opened Options
  import opened Text
  import opened Triage

  // -------------------------------------------------------------- invariant

  predicate Neighbours(depts: map<nat, Department>, d: nat, e: nat)
  {
    d in depts && e in depts && depts[d].org == depts[e].org
  }

  predicate BothDefault(depts: map<nat, Department>, d: nat, e: nat)
  {
    Neighbours(depts, d, e) && depts[d].isDefault && depts[e].isDefault
  }

  predicate SameName(depts: map<nat, Department>, d: nat, e: nat)
  {
    Neighbours(depts, d, e) && depts[d].name == depts[e].name
  }

  predicate SameCategory(depts: map<nat, Department>, d: nat, e: nat) {
    Neighbours(depts, d, e) && depts[d].category.Some? && depts[d].category == depts[e].category
  }

  /** Every organization has exactly one default department, distinct names, and at most one department per category. */
  ghost predicate DeptsGood(orgs: set<nat>, depts: map<nat, Department>) {
    && (forall d :: d in depts ==> depts[d].org in orgs)
    && (forall o :: o in orgs ==> HasDefault(depts, o))
    && (forall d, e :: BothDefault(depts, d, e) ==> d == e)
    && (forall d, e :: SameName(depts, d, e) ==> d == e)
    && (forall d, e :: SameCategory(depts, d, e) ==> d == e)
  }

  ghost predicate HasDefault(depts: map<nat, Department>, o: nat) { exists d: nat :: DefaultFor(depts, o, d) }

  /** The flags mean what they say: an unflagged field shows the newest prediction, and nothing is flagged before
      there is one. */
  predicate Tracks(t: Ticket, all: seq<Analysis>) {
    if all == [] then !t.priorityOverridden && !t.deptOverridden
    else
      && (!t.priorityOverridden ==> t.priority == all[|all| - 1].priority)
      && (!t.deptOverridden && all[|all| - 1].dept.Some? ==> t.dept == all[|all| - 1].dept.value)
  }

  predicate AnalysisGood(depts: map<nat, Department>, org: nat, a: Analysis) {
    (a.fallback ==> a.needsReview) && (a.dept.Some? ==> HomeOf(depts, org, a.dept.value))
  }

  ghost predicate TicketGood(strict: bool, depts: map<nat, Department>, customers: map<nat, nat>, t: Ticket,
      all: seq<Analysis>)
  {
    && HomeOf(depts, t.org, t.dept) && t.customer in customers && customers[t.customer] == t.org
    && t.messages != [] && (t.resolvedAt.Some? <==> t.status == Resolved)
    && (forall k :: 0 <= k < |all| ==> AnalysisGood(depts, t.org, all[k]))
    && (strict ==> Tracks(t, all))
  }

  ghost predicate TicketsGood(strict: bool, s: State) {
    && s.analyses.Keys == s.tickets.Keys
    && forall t :: t in s.tickets ==> TicketGood(strict, s.depts, s.customers, s.tickets[t], AnalysesOf(s, t))
  }

  ghost predicate SeatsGood(depts: map<nat, Department>, staff: map<Seat, nat>) {
    forall k :: k in staff ==> HomeOf(depts, k.org, staff[k])
  }

  ghost predicate Consistent(strict: bool, s: State) {
    DeptsGood(s.orgs, s.depts) && TicketsGood(strict, s) && SeatsGood(s.depts, s.staff)
  }

  /** What holds as long as every use case runs to its end before the next one starts. Without `strict`, all of it but
      the meaning of the flags. */
  ghost predicate Valid(s: State) { Consistent(true, s) }

  /** In a valid state the lookups are determined. */
  lemma LookupsAreDetermined(s: State, org: nat)
    requires DeptsGood(s.orgs, s.depts)
    ensures org in s.orgs <==> DefaultOf(s, org).Some?
    ensures forall d: nat :: IsDefaultOf(s, org, d) ==> DefaultOf(s, org) == Some(d)
    ensures forall c, d: nat :: Handles(s, org, c, d) ==> HandlerOf(s, org, c) == Some(d)
  {
    if org in s.orgs {
      assert HasDefault(s.depts, org);
      var d: nat :| DefaultFor(s.depts, org, d);
      assert IsDefaultOf(s, org, d);
    }
    forall d: nat | IsDefaultOf(s, org, d) ensures DefaultOf(s, org) == Some(d) {
      assert BothDefault(s.depts, d, DefaultOf(s, org).value);
    }
    forall c, d: nat | Handles(s, org, c, d) ensures HandlerOf(s, org, c) == Some(d) {
      assert SameCategory(s.depts, d, HandlerOf(s, org, c).value);
    }
  }

  // ------------------------------------------------------- departments change

  /** No department disappears or moves to another organization. */
  ghost predicate Extends(depts: map<nat, Department>, depts': map<nat, Department>) {
    forall d :: d in depts ==> d in depts' && depts'[d].org == depts[d].org
  }

  lemma ExtendsKeeps(strict: bool, s: State, depts: map<nat, Department>)
    requires TicketsGood(strict, s) && SeatsGood(s.depts, s.staff) && Extends(s.depts, depts)
    ensures TicketsGood(strict, s.(depts := depts)) && SeatsGood(depts, s.staff)
  {
  }

  lemma CreateDepartmentKeeps(strict: bool, s: State, org: nat, id: nat, name: string, description: string,
      category: CategoryField)
    requires Consistent(strict, s) && org in s.orgs && id !in s.depts
    ensures Consistent(strict, CreateDepartment(s, org, id, name, description, category).0)
  {
    var (s', reply) := CreateDepartment(s, org, id, name, description, category);
    if reply.Done? {
      var d := s'.depts[id];
      NewDeptGood(s, org, id, d);
      ExtendsKeeps(strict, s, s.depts[id := d]);
    }
  }

  lemma NewDeptGood(s: State, org: nat, id: nat, d: Department)
    requires DeptsGood(s.orgs, s.depts) && org in s.orgs && id !in s.depts && d.org == org && !d.isDefault
    requires !NameTaken(s, org, d.name, None)
    requires d.category.Some? ==> !CategoryTaken(s, org, d.category.value, None)
    ensures DeptsGood(s.orgs, s.depts[id := d])
  {
    OneChanged(s, id, d);
  }

  /** One department is added or replaced; only pairs with it are new. */
  lemma OneChanged(s: State, id: nat, d: Department)
    requires DeptsGood(s.orgs, s.depts) && d.org in s.orgs
    requires id in s.depts ==> s.depts[id].org == d.org && s.depts[id].isDefault == d.isDefault
    requires id !in s.depts ==> !d.isDefault
    requires forall e :: e in s.depts && e != id && s.depts[e].org == d.org ==>
      s.depts[e].name != d.name && (d.category.Some? ==> s.depts[e].category != d.category)
    ensures DeptsGood(s.orgs, s.depts[id := d])
  {
    var depts := s.depts[id := d];
    forall o | o in s.orgs ensures HasDefault(depts, o) {
      assert HasDefault(s.depts, o);
      var e: nat :| DefaultFor(s.depts, o, e);
      assert DefaultFor(depts, o, e);
    }
    forall e, f | BothDefault(depts, e, f) ensures e == f { assert BothDefault(s.depts, e, f); }
    forall e, f | SameName(depts, e, f) ensures e == f { assert e != id && f != id ==> SameName(s.depts, e, f); }
    forall e, f | SameCategory(depts, e, f)
      ensures e == f
    {
      assert e != id && f != id ==> SameCategory(s.depts, e, f);
    }
  }

  lemma UpdateDepartmentKeeps(strict: bool, s: State, org: nat, id: nat, name: Option<string>,
      description: Option<string>, category: CategoryField)
    requires Consistent(strict, s)
    ensures Consistent(strict, UpdateDepartment(s, org, id, name, description, category).0)
  {
    var (s', reply) := UpdateDepartment(s, org, id, name, description, category);
    if reply.Done? {
      var d := s'.depts[id];
      PatchedGood(s, org, id, d);
      ExtendsKeeps(strict, s, s.depts[id := d]);
    }
  }

  lemma PatchedGood(s: State, org: nat, id: nat, d: Department)
    requires DeptsGood(s.orgs, s.depts) && InOrg(s, org, id) && d.org == org && d.isDefault == s.depts[id].isDefault
    requires d.name == s.depts[id].name || !NameTaken(s, org, d.name, Some(id))
    requires d.category == s.depts[id].category || d.category.None? ||
      !CategoryTaken(s, org, d.category.value, Some(id))
    ensures DeptsGood(s.orgs, s.depts[id := d])
  {
    forall e | e in s.depts && e != id && s.depts[e].org == org
      ensures s.depts[e].name != d.name && (d.category.Some? ==> s.depts[e].category != d.category)
    {
      assert !SameName(s.depts, e, id) && !SameCategory(s.depts, e, id);
    }
    OneChanged(s, id, d);
  }

  /** A non-default department goes, its tickets to the default one; nothing else makes a deletion fail. */
  lemma DeleteDepartmentKeeps(strict: bool, s: State, org: nat, id: nat)
    requires Consistent(strict, s)
    ensures Consistent(strict, DeleteDepartment(s, org, id).0)
    ensures InOrg(s, org, id) && !s.depts[id].isDefault <==> DeleteDepartment(s, org, id).1 == Done
  {
    LookupsAreDetermined(s, org);
    if InOrg(s, org, id) && !s.depts[id].isDefault {
      var to := DefaultOf(s, org).value;
      EmptiedByReassign(strict, s, org, id, to);
      RemainingGood(s, id);
      RemovedTickets(strict, s, org, id, to);
    }
  }

  lemma RemovedTickets(strict: bool, s: State, org: nat, id: nat, to: nat)
    requires TicketsGood(strict, s) && InOrg(s, org, id) && InOrg(s, org, to) && id != to
    requires Remove(Reassign(s, org, id, to), id).1 == Done
    ensures TicketsGood(strict, Remove(Reassign(s, org, id, to), id).0)
  {
    var s' := Remove(Reassign(s, org, id, to), id).0;
    forall t | t in s'.tickets ensures TicketGood(strict, s'.depts, s'.customers, s'.tickets[t], AnalysesOf(s', t)) {
      assert TicketGood(strict, s.depts, s.customers, s.tickets[t], AnalysesOf(s, t));
      ForgottenGood(strict, s.depts, s.customers, s.tickets[t], AnalysesOf(s, t), id, to);
    }
  }

  lemma EmptiedByReassign(strict: bool, s: State, org: nat, from: nat, to: nat)
    requires TicketsGood(strict, s) && InOrg(s, org, from) && from != to
    ensures forall t :: t in s.tickets ==> Reassign(s, org, from, to).tickets[t].dept != from
  {
  }

  lemma RemainingGood(s: State, id: nat)
    requires DeptsGood(s.orgs, s.depts) && id in s.depts && !s.depts[id].isDefault
    ensures DeptsGood(s.orgs, s.depts - {id})
  {
    var depts := s.depts - {id};
    forall o | o in s.orgs ensures HasDefault(depts, o) {
      assert HasDefault(s.depts, o);
      var e: nat :| DefaultFor(s.depts, o, e);
      assert DefaultFor(depts, o, e);
    }
    forall e, f | BothDefault(depts, e, f) ensures e == f { assert BothDefault(s.depts, e, f); }
    forall e, f | SameName(depts, e, f) ensures e == f { assert SameName(s.depts, e, f); }
    forall e, f | SameCategory(depts, e, f) ensures e == f { assert SameCategory(s.depts, e, f); }
  }

  lemma ForgottenGood(strict: bool, depts: map<nat, Department>, customers: map<nat, nat>, t: Ticket,
      all: seq<Analysis>, id: nat, to: nat)
    requires TicketGood(strict, depts, customers, t, all) && id in depts && id != to
    requires t.dept == id ==> HomeOf(depts, t.org, to)
    ensures TicketGood(strict, depts - {id}, customers, if t.dept == id then t.(dept := to) else t, ForgetAll(all, id))
  {
    forall k | 0 <= k < |all|
      ensures AnalysisGood(depts - {id}, t.org, ForgetAll(all, id)[k])
    {
      assert AnalysisGood(depts, t.org, all[k]);
    }
  }

  function MovedTo(t: Ticket, from: nat, to: nat): Ticket { if t.dept == from then t.(dept := to) else t }

  lemma MovedGood(depts: map<nat, Department>, customers: map<nat, nat>, t: Ticket, all: seq<Analysis>, from: nat,
      to: nat)
    requires TicketGood(true, depts, customers, t, all) && from != to && (t.dept == from ==> HomeOf(depts, t.org, to))
    ensures TicketGood(false, depts, customers, MovedTo(t, from, to), all)
    ensures TicketGood(true, depts, customers, MovedTo(t, from, to), all) <==> !Tracked(t, all, from)
  {
  }

  /** The first of a deletion's two statements on its own, should the second never come: every ticket is still in a live
      department, but those moved no longer show the prediction that put them where they were. */
  lemma HalfDeletion(s: State, org: nat, id: nat, to: nat)
    requires Valid(s) && InOrg(s, org, id) && InOrg(s, org, to) && to != id
    ensures var s' := Reassign(s, org, id, to);
      && Consistent(false, s') && s'.tickets.Keys == s.tickets.Keys
      && (Valid(s') <==> forall t :: t in s.tickets ==> !Tracked(s.tickets[t], AnalysesOf(s, t), id))
  {
    var s' := Reassign(s, org, id, to);
    forall t | t in s.tickets
      ensures TicketGood(false, s'.depts, s'.customers, s'.tickets[t], AnalysesOf(s', t))
      ensures TicketGood(true, s'.depts, s'.customers, s'.tickets[t], AnalysesOf(s', t)) <==>
        !Tracked(s.tickets[t], AnalysesOf(s, t), id)
    {
      assert TicketGood(true, s.depts, s.customers, s.tickets[t], AnalysesOf(s, t));
      MovedGood(s.depts, s.customers, s.tickets[t], AnalysesOf(s, t), id, to);
      assert s'.tickets[t] == MovedTo(s.tickets[t], id, to);
    }
  }

  /** The ticket sits in department d because the newest prediction says so. */
  predicate Tracked(t: Ticket, all: seq<Analysis>, d: nat)
  {
    all != [] && !t.deptOverridden && all[|all| - 1].dept == Some(d)
  }

  // ------------------------------------------------------------ tickets change

  /** One ticket and its analyses are added or replaced. */
  lemma TicketSetKeeps(strict: bool, s: State, id: nat, t: Ticket, all: seq<Analysis>)
    requires TicketsGood(strict, s) && TicketGood(strict, s.depts, s.customers, t, all)
    ensures TicketsGood(strict, s.(tickets := s.tickets[id := t], analyses := s.analyses[id := all]))
  {
  }

  lemma CreateTicketKeeps(strict: bool, s: State, org: nat, id: nat, named: Option<nat>, subject: string, body: string,
      scope: Scope)
    requires Consistent(strict, s) && id !in s.tickets
    ensures Consistent(strict, CreateTicket(s, org, id, named, subject, body, scope).0)
  {
    var (s', reply) := CreateTicket(s, org, id, named, subject, body, scope);
    if reply.Done? { TicketSetKeeps(strict, s, id, s'.tickets[id], []); }
  }

  /** What an analysis says of a valid state: it names a department of the organization; falling back means nobody
      handles the category; and nobody need look at it exactly if a department does and neither confidence is below the
      threshold. */
  lemma AnalysisForMeans(s: State, org: nat, result: Option<Prediction>)
    requires DeptsGood(s.orgs, s.depts)
    ensures var made := AnalysisFor(s, org, result);
      && (made.Some? <==>
            && org in s.orgs && result.Some? && result.value.priority.Known? && result.value.category.Known?
            && 0.0 <= result.value.priorityConf <= 1.0 && 0.0 <= result.value.categoryConf <= 1.0)
      && (made.Some? ==>
        && result.Some?
        && made.value.priority == result.value.priority.it && made.value.category == result.value.category.it
        && made.value.dept.Some? && InOrg(s, org, made.value.dept.value)
        && (made.value.fallback <==> forall d: nat :: !Handles(s, org, made.value.category, d))
        && (made.value.fallback ==> IsDefaultOf(s, org, made.value.dept.value) && made.value.needsReview)
        && (!made.value.fallback ==> Handles(s, org, made.value.category, made.value.dept.value))
        && made.value.priorityConf == result.value.priorityConf && made.value.categoryConf == result.value.categoryConf
        && (!made.value.needsReview <==>
              && (exists d: nat :: Handles(s, org, made.value.category, d))
              && s.threshold <= result.value.priorityConf && s.threshold <= result.value.categoryConf))
  {
    LookupsAreDetermined(s, org);
  }

  lemma AnalyzeKeeps(strict: bool, s: State, org: nat, id: nat, result: Option<Prediction>)
    requires Consistent(strict, s)
    ensures Consistent(strict, Analyze(s, org, id, result).0)
  {
    if Analyze(s, org, id, result).1.Done? {
      var a := AnalysisFor(s, org, result).value;
      assert TicketGood(strict, s.depts, s.customers, s.tickets[id], AnalysesOf(s, id));
      AnalysisForMeans(s, org, result);
      AppliedGood(strict, s, org, id, a);
      TicketSetKeeps(strict, s, id, Applied(s.tickets[id], a), AnalysesOf(s, id) + [a]);
    }
  }

  lemma AppliedGood(strict: bool, s: State, org: nat, id: nat, a: Analysis)
    requires TicketIn(s, org, id) && TicketGood(strict, s.depts, s.customers, s.tickets[id], AnalysesOf(s, id))
    requires a.dept.Some? && InOrg(s, org, a.dept.value) && (a.fallback ==> a.needsReview)
    ensures TicketGood(strict, s.depts, s.customers, Applied(s.tickets[id], a), AnalysesOf(s, id) + [a])
  {
  }

  lemma PatchGood(strict: bool, depts: map<nat, Department>, customers: map<nat, nat>, t: Ticket, all: seq<Analysis>,
      p: Patch, now: int)
    requires TicketGood(strict, depts, customers, t, all) && p.priority != Some(Unknown) && p.status != Some(Unknown)
    requires p.dept.Some? ==> HomeOf(depts, t.org, p.dept.value)
    ensures TicketGood(strict, depts, customers,
      WithPatch(t, p, if all == [] then None else Some(all[|all| - 1]), now), all)
  {
  }

  lemma UpdateTicketKeeps(strict: bool, s: State, org: nat, id: nat, p: Patch, scope: Scope, now: int)
    requires Consistent(strict, s)
    ensures Consistent(strict, UpdateTicket(s, org, id, p, scope, now).0)
  {
    if CheckPatch(s, org, id, p, scope).Done? {
      var t, all := s.tickets[id], AnalysesOf(s, id);
      assert TicketGood(strict, s.depts, s.customers, t, all);
      PatchGood(strict, s.depts, s.customers, t, all, p, now);
      TicketSetKeeps(strict, s, id, WithPatch(t, p, Latest(s, id), now), all);
      assert s.analyses[id := all] == s.analyses;
    }
  }

  lemma StepKeeps(strict: bool, s: State, op: Op)
    requires Consistent(strict, s) && Enabled(s, op)
    ensures Consistent(strict, Step(s, op))
  {
    match op
    case OpCreateDepartment(org, id, name, description, category) =>
      CreateDepartmentKeeps(strict, s, org, id, TrimSpace(name), TrimSpace(description), category);
    case OpUpdateDepartment(org, id, name, description, category) =>
      UpdateDepartmentKeeps(strict, s, org, id, Trimmed(name), Trimmed(description), category);
    case OpDeleteDepartment(org, id) => DeleteDepartmentKeeps(strict, s, org, id);
    case OpCreateTicket(org, id, named, subject, body, scope) =>
      CreateTicketKeeps(strict, s, org, id, named, TrimSpace(subject), body, scope);
    case OpAnalyze(org, id, result) => AnalyzeKeeps(strict, s, org, id, result);
    case OpUpdateTicket(org, id, patch, scope, now) => UpdateTicketKeeps(strict, s, org, id, patch, scope, now);
    case OpPlace(seat, dept) =>
  }

  /** Main result: after any run of any use cases, every organization has exactly one default department, distinct
      names, at most one department per category; every ticket, prediction and placement is in a live department of
      its own organization; and every field nobody has corrected shows the newest prediction. */
  lemma {:induction false} RunKeeps(strict: bool, s: State, ops: seq<Op>)
    requires Consistent(strict, s) && Lawful(s, ops)
    ensures Consistent(strict, Run(s, ops))
    decreases |ops|
  {
    if ops != [] {
      StepKeeps(strict, s, ops[0]);
      RunKeeps(strict, Step(s, ops[0]), ops[1..]);
    }
  }

  /** An organization as it is created: one department, the default one. */
  lemma StartIsValid(org: nat, id: nat, name: string, customers: map<nat, nat>, threshold: real)
    ensures Valid(State({org}, map[id := Department(org, name, "", None, true)], customers, map[], map[], map[],
      threshold))
  {
    assert DefaultFor(map[id := Department(org, name, "", None, true)], org, id);
  }

  // ------------------------------------------------------------- deletion

  lemma DeletionTickets(s: State, org: nat, id: nat)
    requires DeleteDepartment(s, org, id).1 == Done
    ensures InOrg(s, org, id) && DefaultOf(s, org).Some? && DefaultOf(s, org).value != id
    ensures DeleteDepartment(s, org, id).0.tickets == Reassign(s, org, id, DefaultOf(s, org).value).tickets
    ensures DeleteDepartment(s, org, id).0.depts == s.depts - {id}
  {
  }

  lemma ReassignMoves(strict: bool, s: State, org: nat, id: nat, to: nat)
    requires TicketsGood(strict, s) && InOrg(s, org, id)
    ensures var s' := Reassign(s, org, id, to);
      && s'.tickets.Keys == s.tickets.Keys && |s'.tickets| == |s.tickets|
      && forall t :: t in s.tickets ==> s'.tickets[t] == MovedTo(s.tickets[t], id, to)
  {
  }

  /** Deletion conserves the tickets, moves precisely the deleted department's, and nothing else about them changes. */
  lemma DeletionMovesExactly(strict: bool, s: State, org: nat, id: nat)
    requires Consistent(strict, s) && DeleteDepartment(s, org, id).1 == Done
    ensures var s' := DeleteDepartment(s, org, id).0;
      && s'.tickets.Keys == s.tickets.Keys && |s'.tickets| == |s.tickets|
      && DefaultOf(s, org).Some? && IsDefaultOf(s', org, DefaultOf(s, org).value)
      && forall t :: t in s.tickets ==> s'.tickets[t] == MovedTo(s.tickets[t], id, DefaultOf(s, org).value)
  {
    DeletionTickets(s, org, id);
    ReassignMoves(strict, s, org, id, DefaultOf(s, org).value);
  }

  /** The people of a deleted department come back unassigned; everybody else stays where they are. */
  lemma DeletionUnassigns(s: State, org: nat, id: nat)
    requires DeleteDepartment(s, org, id).1 == Done
    ensures var s' := DeleteDepartment(s, org, id).0;
      && s'.depts == s.depts - {id}
      && (forall k :: k in s'.staff <==> k in s.staff && s.staff[k] != id)
      && (forall k :: k in s'.staff ==> s'.staff[k] == s.staff[k])
  {
  }

  // ------------------------------------------------------------- analyses

  /** A later state of the same analysis: the department it named may have been deleted. */
  predicate Ages(was: Analysis, now: Analysis) { now == was || now == was.(dept := None) }

  ghost predicate Grows(was: seq<Analysis>, now: seq<Analysis>) {
    |was| <= |now| && forall k :: 0 <= k < |was| ==> Ages(was[k], now[k])
  }

  lemma DeletionGrows(s: State, org: nat, id: nat, t: nat)
    ensures Grows(AnalysesOf(s, t), AnalysesOf(DeleteDepartment(s, org, id).0, t))
  {
  }

  lemma CreationGrows(s: State, org: nat, id: nat, named: Option<nat>, subject: string, body: string, scope: Scope,
      t: nat)
    requires s.analyses.Keys == s.tickets.Keys && id !in s.tickets
    ensures AnalysesOf(CreateTicket(s, org, id, named, subject, body, scope).0, t) == AnalysesOf(s, t)
  {
  }

  lemma PatchGrows(s: State, org: nat, id: nat, p: Patch, scope: Scope, now: int)
    ensures UpdateTicket(s, org, id, p, scope, now).0.analyses == s.analyses
  {
  }

  lemma DepartmentSpares(s: State, org: nat, id: nat, name: string, description: string, category: CategoryField)
    ensures CreateDepartment(s, org, id, name, description, category).0.analyses == s.analyses
    ensures forall n, d :: UpdateDepartment(s, org, id, n, d, category).0.analyses == s.analyses
  {
  }

  lemma AnalyzeGrows(s: State, org: nat, id: nat, result: Option<Prediction>, t: nat)
    ensures AnalysesOf(s, t) <= AnalysesOf(Analyze(s, org, id, result).0, t)
  {
  }

  lemma PrefixGrows(was: seq<Analysis>, now: seq<Analysis>)
    requires was <= now
    ensures Grows(was, now)
  {
  }

  lemma StepGrows(s: State, op: Op, t: nat)
    requires s.analyses.Keys == s.tickets.Keys && Enabled(s, op)
    ensures Grows(AnalysesOf(s, t), AnalysesOf(Step(s, op), t))
  {
    if op.OpDeleteDepartment? {
      DeletionGrows(s, op.org, op.id, t);
    } else {
      StepExtends(s, op, t);
      PrefixGrows(AnalysesOf(s, t), AnalysesOf(Step(s, op), t));
    }
  }

  lemma StepExtends(s: State, op: Op, t: nat)
    requires s.analyses.Keys == s.tickets.Keys && Enabled(s, op) && !op.OpDeleteDepartment?
    ensures AnalysesOf(s, t) <= AnalysesOf(Step(s, op), t)
  {
    match op
    case OpCreateDepartment(org, id, name, description, category) =>
      DepartmentSpares(s, org, id, TrimSpace(name), TrimSpace(description), category);
    case OpUpdateDepartment(org, id, name, description, category) => DepartmentSpares(s, org, id, "", "", category);
    case OpCreateTicket(org, id, named, subject, body, scope) =>
      CreationGrows(s, org, id, named, TrimSpace(subject), body, scope, t);
    case OpAnalyze(org, id, result) => AnalyzeGrows(s, org, id, result, t);
    case OpUpdateTicket(org, id, patch, scope, now) => PatchGrows(s, org, id, patch, scope, now);
    case OpPlace(_, _) =>
  }

  /** Analyses only grow: over any run none is lost, reordered or rewritten, except that a deleted department is
      cleared. */
  lemma {:induction false} AnalysesOnlyGrow(strict: bool, s: State, ops: seq<Op>, t: nat)
    requires Consistent(strict, s) && Lawful(s, ops)
    ensures Grows(AnalysesOf(s, t), AnalysesOf(Run(s, ops), t))
    decreases |ops|
  {
    if ops != [] {
      StepKeeps(strict, s, ops[0]);
      StepGrows(s, ops[0], t);
      AnalysesOnlyGrow(strict, Step(s, ops[0]), ops[1..], t);
    }
  }

  /** A successful analysis adds one record, which says what the classifier said, and brings exactly the uncorrected
      fields to it; a failed one leaves no trace; no other ticket is touched. The record asks for a human unless a
      department handles the category and neither confidence is below the threshold. */
  lemma AnalyzeMeans(s: State, org: nat, id: nat, result: Option<Prediction>)
    ensures var (s', reply) := Analyze(s, org, id, result);
      && (reply.Failed? ==> s' == s)
      && (reply.Done? ==>
        && id in s.tickets && s.tickets[id].org == org && Latest(s', id).Some? && Latest(s', id).value.dept.Some?
        && AnalysesOf(s', id) == AnalysesOf(s, id) + [Latest(s', id).value]
        && var (t, t', a) := (s.tickets[id], s'.tickets[id], Latest(s', id).value);
           && t'.priority == (if t.priorityOverridden then t.priority else a.priority)
           && t'.dept == (if t.deptOverridden then t.dept else a.dept.value)
           && t' == t.(priority := t'.priority, dept := t'.dept)
           && result.Some? && var p := result.value;
           && p.priority == Known(a.priority) && p.category == Known(a.category)
           && a.priorityConf == p.priorityConf && a.categoryConf == p.categoryConf
           && (a.fallback <==> forall d: nat :: !Handles(s, org, a.category, d))
           && (if a.fallback then IsDefaultOf(s, org, a.dept.value) else Handles(s, org, a.category, a.dept.value))
           && (!a.needsReview <==> !a.fallback && s.threshold <= p.priorityConf && s.threshold <= p.categoryConf)
           && (forall u :: u != id && u in s.tickets ==>
                 u in s'.tickets && s'.tickets[u] == s.tickets[u] && AnalysesOf(s', u) == AnalysesOf(s, u)))
  {
  }

  lemma AnalyzeRespects(s: State, org: nat, id: nat, result: Option<Prediction>)
    requires TicketIn(s, org, id)
    ensures var s' := Analyze(s, org, id, result).0;
      && TicketIn(s', org, id)
      && (s.tickets[id].priorityOverridden ==>
            s'.tickets[id].priorityOverridden && s'.tickets[id].priority == s.tickets[id].priority)
      && (s.tickets[id].deptOverridden ==> s'.tickets[id].deptOverridden && s'.tickets[id].dept == s.tickets[id].dept)
  {
  }

  /** The same ticket analysed again and again. */
  ghost function Rerun(s: State, org: nat, id: nat, results: seq<Option<Prediction>>): State
    decreases |results|
  {
    if results == [] then s else Rerun(Analyze(s, org, id, results[0]).0, org, id, results[1..])
  }

  /** However often a ticket is analysed again, a corrected field keeps the human's value and its flag. */
  lemma {:induction false} CorrectionsStand(s: State, org: nat, id: nat, results: seq<Option<Prediction>>)
    requires TicketIn(s, org, id)
    ensures var s' := Rerun(s, org, id, results);
      && TicketIn(s', org, id)
      && (s.tickets[id].priorityOverridden ==>
            s'.tickets[id].priorityOverridden && s'.tickets[id].priority == s.tickets[id].priority)
      && (s.tickets[id].deptOverridden ==> s'.tickets[id].deptOverridden && s'.tickets[id].dept == s.tickets[id].dept)
    decreases |results|
  {
    if results != [] {
      AnalyzeRespects(s, org, id, results[0]);
      CorrectionsStand(Analyze(s, org, id, results[0]).0, org, id, results[1..]);
    }
  }

  // ------------------------------------------------------------ corrections

  const NO_PATCH := Patch(None, None, None)

  /** A staff member sets the priority and nothing else. */
  lemma PriorityPatch(s: State, org: nat, id: nat, p: Priority, now: int)
    requires TicketIn(s, org, id)
    ensures UpdateTicket(s, org, id, NO_PATCH.(priority := Some(Known(p))), OrgWide, now).0 ==
      s.(tickets := s.tickets[id := WithPriority(s.tickets[id], p, Latest(s, id))])
  {
  }

  /** A staff member moves the ticket and does nothing else. */
  lemma DeptPatch(s: State, org: nat, id: nat, d: nat, now: int)
    requires TicketIn(s, org, id) && InOrg(s, org, d)
    ensures UpdateTicket(s, org, id, NO_PATCH.(dept := Some(d)), OrgWide, now).0 ==
      s.(tickets := s.tickets[id := WithDept(s.tickets[id], d, Latest(s, id))])
  {
  }

  /** When a corrected priority outlives the next analysis: exactly if the model agrees with it anyway, or if there
      was a prediction for the human to disagree with. A correction made before the first analysis is not flagged. */
  lemma CorrectionOutlivesAnalysis(s: State, org: nat, id: nat, p: Priority, now: int, result: Option<Prediction>)
    requires Valid(s) && TicketIn(s, org, id) && AnalysisFor(s, org, result).Some?
    ensures var s1 := UpdateTicket(s, org, id, NO_PATCH.(priority := Some(Known(p))), OrgWide, now).0;
      var s2 := Analyze(s1, org, id, result).0;
      && id in s2.tickets
      && (s2.tickets[id].priority == p <==>
           result.value.priority == Known(p) || (Latest(s, id).Some? && Latest(s, id).value.priority != p))
  {
    var s1 := s.(tickets := s.tickets[id := WithPriority(s.tickets[id], p, Latest(s, id))]);
    PriorityPatch(s, org, id, p, now);
    SameDeptsSameAnalysis(s, s1, org, result);
    assert TicketGood(true, s.depts, s.customers, s.tickets[id], AnalysesOf(s, id));
  }

  /** Whether moving a ticket of this state to department d is remembered as a correction. */
  predicate MoveIsFlagged(s: State, id: nat, d: nat)
    requires id in s.tickets
  {
    Latest(s, id).Some? &&
    var predicted := Latest(s, id).value.dept;
    if predicted.Some? then predicted.value != d else s.tickets[id].deptOverridden
  }

  /** When a corrected department outlives the next analysis: exactly if the model agrees, or the newest analysis names
      another department, or it names none any more and the ticket was flagged already. */
  lemma MoveOutlivesAnalysis(s: State, org: nat, id: nat, d: nat, now: int, result: Option<Prediction>)
    requires Valid(s) && TicketIn(s, org, id) && InOrg(s, org, d) && AnalysisFor(s, org, result).Some?
    ensures var s1 := UpdateTicket(s, org, id, NO_PATCH.(dept := Some(d)), OrgWide, now).0;
      var s2 := Analyze(s1, org, id, result).0;
      && id in s2.tickets
      && (s2.tickets[id].dept == d <==> AnalysisFor(s, org, result).value.dept == Some(d) || MoveIsFlagged(s, id, d))
  {
    var s1 := s.(tickets := s.tickets[id := WithDept(s.tickets[id], d, Latest(s, id))]);
    DeptPatch(s, org, id, d, now);
    SameDeptsSameAnalysis(s, s1, org, result);
    AnalysisForMeans(s, org, result);
    assert TicketGood(true, s.depts, s.customers, s.tickets[id], AnalysesOf(s, id));
  }

  lemma DeletionFlags(s: State, org: nat, id: nat, gone: nat)
    requires TicketIn(s, org, id) && DeleteDepartment(s, org, gone).1 == Done
    ensures var s1 := DeleteDepartment(s, org, gone).0;
      TicketIn(s1, org, id) && s1.tickets[id].deptOverridden == s.tickets[id].deptOverridden
  {
    DeletionTickets(s, org, gone);
  }

  lemma DeletionForgets(s: State, org: nat, id: nat, gone: nat)
    requires DeleteDepartment(s, org, gone).1 == Done
    ensures AnalysesOf(DeleteDepartment(s, org, gone).0, id) == ForgetAll(AnalysesOf(s, id), gone)
  {
  }

  lemma LastForgotten(all: seq<Analysis>, gone: nat)
    requires all != [] && all[|all| - 1].dept == Some(gone)
    ensures ForgetAll(all, gone) != [] && ForgetAll(all, gone)[|all| - 1].dept == None
  {
  }

  lemma PredictionDeleted(s: State, org: nat, id: nat, gone: nat)
    requires Valid(s) && TicketIn(s, org, id) && DeleteDepartment(s, org, gone).1 == Done
    requires Latest(s, id).Some? && Latest(s, id).value.dept == Some(gone)
    ensures var s1 := DeleteDepartment(s, org, gone).0;
      && Valid(s1) && TicketIn(s1, org, id) && s1.tickets[id].deptOverridden == s.tickets[id].deptOverridden
      && Latest(s1, id).Some? && Latest(s1, id).value.dept == None
  {
    DeleteDepartmentKeeps(true, s, org, gone);
    DeletionFlags(s, org, id, gone);
    DeletionForgets(s, org, id, gone);
    LastForgotten(AnalysesOf(s, id), gone);
  }

  /** The second way to lose a move: the department the newest analysis named is deleted first. Nothing is left to
      compare with, the move is not flagged, and the next analysis that names another department takes it back. */
  lemma DeletionHidesMoves(s: State, org: nat, id: nat, gone: nat, d: nat, now: int, result: Option<Prediction>)
    requires Valid(s) && TicketIn(s, org, id) && !s.tickets[id].deptOverridden
    requires DeleteDepartment(s, org, gone).1 == Done
    requires Latest(s, id).Some? && Latest(s, id).value.dept == Some(gone)
    requires var s1 := DeleteDepartment(s, org, gone).0; InOrg(s1, org, d) && AnalysisFor(s1, org, result).Some?
    ensures var s1 := DeleteDepartment(s, org, gone).0;
      var s2 := UpdateTicket(s1, org, id, NO_PATCH.(dept := Some(d)), OrgWide, now).0;
      var s3 := Analyze(s2, org, id, result).0;
      && id in s2.tickets && s2.tickets[id].dept == d && !s2.tickets[id].deptOverridden
      && id in s3.tickets && Some(s3.tickets[id].dept) == AnalysisFor(s1, org, result).value.dept
  {
    PredictionDeleted(s, org, id, gone);
    UnflaggedMoveIsTaken(DeleteDepartment(s, org, gone).0, org, id, d, now, result);
  }

  lemma UnflaggedMoveIsTaken(s: State, org: nat, id: nat, d: nat, now: int, result: Option<Prediction>)
    requires Valid(s) && TicketIn(s, org, id) && InOrg(s, org, d) && AnalysisFor(s, org, result).Some?
    requires !s.tickets[id].deptOverridden && Latest(s, id).Some? && Latest(s, id).value.dept == None
    ensures var s2 := UpdateTicket(s, org, id, NO_PATCH.(dept := Some(d)), OrgWide, now).0;
      var s3 := Analyze(s2, org, id, result).0;
      && id in s2.tickets && s2.tickets[id].dept == d && !s2.tickets[id].deptOverridden
      && id in s3.tickets && Some(s3.tickets[id].dept) == AnalysisFor(s, org, result).value.dept
  {
    DeptPatch(s, org, id, d, now);
    SameDeptsSameAnalysis(s, s.(tickets := s.tickets[id := WithDept(s.tickets[id], d, Latest(s, id))]), org, result);
    AnalysisForMeans(s, org, result);
  }

  /** Such a state: ticket 7 was routed to department 1 for its category, which is about to be deleted; department 2 is
      where a human will put it. */
  const ROUTED := State({5},
    map[0 := Department(5, "g", "", None, true), 1 := Department(5, "b", "", Some(Billing), false),
        2 := Department(5, "s", "", None, false)], map[3 := 5],
    map[7 := Ticket(5, 3, 1, "", Open, None, Normal, false, false, ["?"])],
    map[7 := [Analysis(Normal, 0.9, Billing, 0.9, Some(1), false, false)]], map[], 0.6)

  const AGAIN := Some(Prediction(Known(Normal), 0.9, Known(Billing), 0.9))

  /** The loss happens: the ticket is moved to department 2 and the next analysis puts it back into the default one. */
  lemma MoveIsLost()
    ensures Valid(ROUTED)
    ensures var s1 := DeleteDepartment(ROUTED, 5, 1).0;
      var s2 := UpdateTicket(s1, 5, 7, NO_PATCH.(dept := Some(2)), OrgWide, 0).0;
      var s3 := Analyze(s2, 5, 7, AGAIN).0;
      7 in s2.tickets && s2.tickets[7].dept == 2 && 7 in s3.tickets && s3.tickets[7].dept == 0
  {
    RoutedDeleted();
    DeletionHidesMoves(ROUTED, 5, 7, 1, 2, 0, AGAIN);
  }

  /** The same ticket before its first analysis, still in the default department. */
  const UNREAD := ROUTED.(tickets := map[7 := ROUTED.tickets[7].(dept := 0)], analyses := map[7 := []])

  lemma UnreadIsValid()
    ensures Valid(UNREAD)
  {
    RoutedDepartments();
    assert SeatsGood(UNREAD.depts, UNREAD.staff);
    assert AnalysesOf(UNREAD, 7) == [];
    assert TicketGood(true, UNREAD.depts, UNREAD.customers, UNREAD.tickets[7], AnalysesOf(UNREAD, 7));
  }

  /** The first way to lose a correction: the priority is set before the first analysis, which takes it back. */
  lemma CorrectionIsLost()
    ensures Valid(UNREAD)
    ensures var s1 := UpdateTicket(UNREAD, 5, 7, NO_PATCH.(priority := Some(Known(Urgent))), OrgWide, 0).0;
      var s2 := Analyze(s1, 5, 7, AGAIN).0;
      7 in s1.tickets && s1.tickets[7].priority == Urgent && 7 in s2.tickets && s2.tickets[7].priority != Urgent
  {
    UnreadIsValid();
    AnalysisForMeans(UNREAD, 5, AGAIN);
    PriorityPatch(UNREAD, 5, 7, Urgent, 0);
    CorrectionOutlivesAnalysis(UNREAD, 5, 7, Urgent, 0, AGAIN);
  }

  lemma RoutedDeleted()
    ensures Valid(ROUTED) && DeleteDepartment(ROUTED, 5, 1).1 == Done
    ensures var s1 := DeleteDepartment(ROUTED, 5, 1).0;
      InOrg(s1, 5, 2) && AnalysisFor(s1, 5, AGAIN).Some? && AnalysisFor(s1, 5, AGAIN).value.dept == Some(0)
  {
    RoutedIsValid();
    DeleteDepartmentKeeps(true, ROUTED, 5, 1);
    var s1 := DeleteDepartment(ROUTED, 5, 1).0;
    DeletionTickets(ROUTED, 5, 1);
    LookupsAreDetermined(s1, 5);
    assert IsDefaultOf(s1, 5, 0);
    AnalysisForMeans(s1, 5, AGAIN);
  }

  lemma RoutedIsValid()
    ensures Valid(ROUTED)
  {
    RoutedDepartments();
    assert SeatsGood(ROUTED.depts, ROUTED.staff);
    var t := ROUTED.tickets[7];
    assert AnalysesOf(ROUTED, 7) == [Analysis(Normal, 0.9, Billing, 0.9, Some(1), false, false)];
    assert TicketGood(true, ROUTED.depts, ROUTED.customers, t, AnalysesOf(ROUTED, 7));
  }

  lemma RoutedDepartments()
    ensures DeptsGood(ROUTED.orgs, ROUTED.depts)
  {
    assert "g" != "b" && "g" != "s" && "b" != "s";
    ThreeDepartments(5, ROUTED.depts);
  }

  lemma ThreeDepartments(org: nat, depts: map<nat, Department>)
    requires depts.Keys == {0, 1, 2}
    requires forall d :: d in depts ==> depts[d].org == org && (depts[d].isDefault <==> d == 0)
    requires depts[0].name != depts[1].name && depts[0].name != depts[2].name && depts[1].name != depts[2].name
    requires depts[0].category.None? && depts[2].category.None?
    ensures DeptsGood({org}, depts)
  {
    assert DefaultFor(depts, org, 0);
  }

  lemma SameDeptsSameAnalysis(s: State, s1: State, org: nat, result: Option<Prediction>)
    requires s1.depts == s.depts && s1.orgs == s.orgs && s1.threshold == s.threshold && DeptsGood(s.orgs, s.depts)
    ensures AnalysisFor(s1, org, result) == AnalysisFor(s, org, result)
  {
    LookupsAreDetermined(s, org);
    LookupsAreDetermined(s1, org);
    forall d: nat, c ensures Handles(s, org, c, d) <==> Handles(s1, org, c, d) { }
    forall d: nat ensures IsDefaultOf(s, org, d) <==> IsDefaultOf(s1, org, d) { }
  }

  // ------------------------------------------------------------- customers

  /** All a customer can do to a ticket is move a resolved request of their own back to open; the effective priority,
      the routing and the flags stay. */
  lemma CustomerOnlyReopens(s: State, org: nat, id: nat, p: Patch, owner: Option<nat>, now: int)
    ensures var (s', reply) := UpdateTicket(s, org, id, p, CustomerScope(owner), now);
      reply.Done? ==>
        && TicketIn(s, org, id) && owner == Some(s.tickets[id].customer) && IsResolved(s.tickets[id])
        && s' == s.(tickets := s.tickets[id := s.tickets[id].(status := Open, resolvedAt := None)])
  {
  }

  /** Somebody else's ticket answers a customer exactly as a ticket that does not exist, whatever is asked of it. */
  lemma ForeignIsMissing(s: State, org: nat, id: nat, missing: nat, p: Patch, owner: Option<nat>, now: int)
    requires id in s.tickets ==> owner != Some(s.tickets[id].customer)
    requires missing !in s.tickets
    ensures UpdateTicket(s, org, id, p, CustomerScope(owner), now) ==
      UpdateTicket(s, org, missing, p, CustomerScope(owner), now)
  {
  }

  /** A customer's ticket is their own, whomever the request names. */
  lemma CustomersFileForThemselves(s: State, org: nat, id: nat, named: Option<nat>, named': Option<nat>,
      subject: string, body: string, owner: Option<nat>)
    ensures CreateTicket(s, org, id, named, subject, body, CustomerScope(owner)) ==
      CreateTicket(s, org, id, named', subject, body, CustomerScope(owner))
    ensures var (s', reply) := CreateTicket(s, org, id, named, subject, body, CustomerScope(owner));
      reply.Done? ==> owner.Some? && s'.tickets[id].customer == owner.value && s'.tickets[id].messages == [body]
  {
  }
}

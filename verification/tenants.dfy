/** Organizations are strangers to one another: what one of them does leaves the others' data as it was. */
module Tenants {
  import opened Options
  import opened Text
  import opened Triage
  import opened TriageSafety

  /** On whose behalf a use case runs. */
  function CallerOf(op: Op): nat { if op.OpPlace? then op.seat.org else op.org }

  ghost predicate SameDepartments(s: State, s': State, o: nat) {
    && (forall d :: d in s.depts && s.depts[d].org == o ==> d in s'.depts && s'.depts[d] == s.depts[d])
    && (forall d :: d in s'.depts && s'.depts[d].org == o ==> d in s.depts && s.depts[d].org == o)
  }

  ghost predicate SameTickets(s: State, s': State, o: nat) {
    && (forall t :: t in s.tickets && s.tickets[t].org == o ==>
          t in s'.tickets && s'.tickets[t] == s.tickets[t] && AnalysesOf(s', t) == AnalysesOf(s, t))
    && (forall t :: t in s'.tickets && s'.tickets[t].org == o ==> t in s.tickets && s.tickets[t].org == o)
  }

  ghost predicate SameSeats(s: State, s': State, o: nat) {
    && (forall k :: k in s.staff && k.org == o ==> k in s'.staff && s'.staff[k] == s.staff[k])
    && (forall k :: k in s'.staff && k.org == o ==> k in s.staff)
  }

  /** Organization o has the departments, tickets, analyses and placements it had. */
  ghost predicate SameFor(s: State, s': State, o: nat) {
    SameDepartments(s, s', o) && SameTickets(s, s', o) && SameSeats(s, s', o)
  }

  /** Nothing of this organization is under that id, before or after. */
  lemma OneDepartment(s: State, id: nat, d: Department, o: nat)
    requires d.org != o && (id in s.depts ==> s.depts[id].org != o)
    ensures SameFor(s, s.(depts := s.depts[id := d]), o)
  {
  }

  lemma OneTicket(s: State, id: nat, t: Ticket, all: seq<Analysis>, o: nat)
    requires t.org != o && (id in s.tickets ==> s.tickets[id].org != o)
    ensures SameFor(s, s.(tickets := s.tickets[id := t], analyses := s.analyses[id := all]), o)
  {
  }

  lemma OneTicketOnly(s: State, id: nat, t: Ticket, o: nat)
    requires t.org != o && (id in s.tickets ==> s.tickets[id].org != o)
    ensures SameFor(s, s.(tickets := s.tickets[id := t]), o)
  {
  }

  lemma DepartmentsSpare(s: State, org: nat, id: nat, name: string, description: string, category: CategoryField,
      o: nat)
    requires id !in s.depts && org != o
    ensures SameFor(s, CreateDepartment(s, org, id, name, description, category).0, o)
  {
    var (s', reply) := CreateDepartment(s, org, id, name, description, category);
    if reply.Done? { OneDepartment(s, id, s'.depts[id], o); }
  }

  lemma EditsSpare(s: State, org: nat, id: nat, name: Option<string>, description: Option<string>,
      category: CategoryField, o: nat)
    requires org != o
    ensures SameFor(s, UpdateDepartment(s, org, id, name, description, category).0, o)
  {
    var (s', reply) := UpdateDepartment(s, org, id, name, description, category);
    if reply.Done? {
      assert s'.depts[id].org == org;
      OneDepartment(s, id, s'.depts[id], o);
    }
  }

  lemma ForgettingSpares(all: seq<Analysis>, d: nat)
    requires forall k :: 0 <= k < |all| ==> all[k].dept != Some(d)
    ensures ForgetAll(all, d) == all
  {
  }

  lemma TicketsStay(s: State, org: nat, from: nat, to: nat, t: nat, o: nat)
    requires Consistent(false, s) && HomeOf(s.depts, org, from) && org != o && t in s.tickets && s.tickets[t].org == o
    ensures Reassign(s, org, from, to).tickets[t] == s.tickets[t]
    ensures ForgetAll(AnalysesOf(s, t), from) == AnalysesOf(s, t)
  {
    var all := AnalysesOf(s, t);
    assert TicketGood(false, s.depts, s.customers, s.tickets[t], all);
    forall k | 0 <= k < |all| ensures all[k].dept != Some(from) { assert AnalysisGood(s.depts, o, all[k]); }
    ForgettingSpares(all, from);
  }

  lemma RemovalSpares(s: State, s': State, org: nat, from: nat, to: nat, o: nat)
    requires Consistent(false, s) && HomeOf(s.depts, org, from) && org != o
    requires s' == s.(depts := s.depts - {from}, tickets := Reassign(s, org, from, to).tickets, staff := s'.staff,
      analyses := map t | t in s.analyses :: ForgetAll(s.analyses[t], from))
    requires s'.staff == map k | k in s.staff && s.staff[k] != from :: s.staff[k]
    ensures SameFor(s, s', o)
  {
    forall t | t in s.tickets && s.tickets[t].org == o
      ensures t in s'.tickets && s'.tickets[t] == s.tickets[t] && AnalysesOf(s', t) == AnalysesOf(s, t)
    {
      TicketsStay(s, org, from, to, t, o);
    }
    forall k | k in s.staff && k.org == o ensures k in s'.staff { assert HomeOf(s.depts, k.org, s.staff[k]); }
  }

  lemma DeletionLeaves(s: State, org: nat, id: nat)
    requires DeleteDepartment(s, org, id).1 == Done
    ensures HomeOf(s.depts, org, id) && DefaultOf(s, org).Some?
    ensures var s' := DeleteDepartment(s, org, id).0;
      && s' == s.(depts := s.depts - {id}, tickets := Reassign(s, org, id, DefaultOf(s, org).value).tickets,
           staff := s'.staff, analyses := map t | t in s.analyses :: ForgetAll(s.analyses[t], id))
      && s'.staff == map k | k in s.staff && s.staff[k] != id :: s.staff[k]
  {
  }

  lemma DeletionsSpare(s: State, org: nat, id: nat, o: nat)
    requires Consistent(false, s) && org != o
    ensures SameFor(s, DeleteDepartment(s, org, id).0, o)
  {
    var (s', reply) := DeleteDepartment(s, org, id);
    if reply.Done? {
      DeletionLeaves(s, org, id);
      RemovalSpares(s, s', org, id, DefaultOf(s, org).value, o);
    } else {
      assert s' == s;
    }
  }

  lemma TicketsSpare(s: State, org: nat, id: nat, named: Option<nat>, subject: string, body: string, scope: Scope,
      o: nat)
    requires id !in s.tickets && org != o
    ensures SameFor(s, CreateTicket(s, org, id, named, subject, body, scope).0, o)
  {
    var (s', reply) := CreateTicket(s, org, id, named, subject, body, scope);
    if reply.Done? { OneTicket(s, id, s'.tickets[id], [], o); }
  }

  lemma AnalysesSpare(s: State, org: nat, id: nat, result: Option<Prediction>, o: nat)
    requires org != o
    ensures SameFor(s, Analyze(s, org, id, result).0, o)
  {
    var (s', reply) := Analyze(s, org, id, result);
    if reply.Done? { OneTicket(s, id, s'.tickets[id], s'.analyses[id], o); }
  }

  lemma CorrectionsSpare(s: State, org: nat, id: nat, p: Patch, scope: Scope, now: int, o: nat)
    requires org != o
    ensures SameFor(s, UpdateTicket(s, org, id, p, scope, now).0, o)
  {
    var (s', reply) := UpdateTicket(s, org, id, p, scope, now);
    if reply.Done? { OneTicketOnly(s, id, s'.tickets[id], o); }
  }

  lemma StepSpares(s: State, op: Op, o: nat)
    requires Consistent(false, s) && Enabled(s, op) && CallerOf(op) != o
    ensures SameFor(s, Step(s, op), o)
  {
    match op
    case OpCreateDepartment(org, id, name, description, category) =>
      DepartmentsSpare(s, org, id, TrimSpace(name), TrimSpace(description), category, o);
    case OpUpdateDepartment(org, id, name, description, category) =>
      EditsSpare(s, org, id, Trimmed(name), Trimmed(description), category, o);
    case OpDeleteDepartment(org, id) => DeletionsSpare(s, org, id, o);
    case OpCreateTicket(org, id, named, subject, body, scope) =>
      TicketsSpare(s, org, id, named, TrimSpace(subject), body, scope, o);
    case OpAnalyze(org, id, result) => AnalysesSpare(s, org, id, result, o);
    case OpUpdateTicket(org, id, patch, scope, now) => CorrectionsSpare(s, org, id, patch, scope, now, o);
    case OpPlace(seat, dept) =>
  }

  lemma SparesChain(s: State, t: State, u: State, o: nat)
    requires SameFor(s, t, o) && SameFor(t, u, o)
    ensures SameFor(s, u, o)
  {
  }

  /** Main result: whatever the other organizations do, in any order and however often, an organization's departments,
      tickets, analyses and placements stay as they are. */
  lemma {:induction false} OthersChangeNothing(s: State, ops: seq<Op>, o: nat)
    requires Consistent(false, s) && Lawful(s, ops) && forall k :: 0 <= k < |ops| ==> CallerOf(ops[k]) != o
    ensures SameFor(s, Run(s, ops), o)
    decreases |ops|
  {
    if ops != [] {
      var t := Step(s, ops[0]);
      StepSpares(s, ops[0], o);
      StepKeeps(false, s, ops[0]);
      OthersChangeNothing(t, ops[1..], o);
      SparesChain(s, t, Run(t, ops[1..]), o);
    }
  }
}

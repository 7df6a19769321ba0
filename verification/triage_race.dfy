/** Use cases that overlap. Four of them read a row and write later with no transaction around the two: an analysis
    reads the ticket before it asks the classifier and writes it back whole; a correction does the same around its
    checks, and so does an edit of a department; a deletion moves the tickets and then deletes. */
module TriageRace {
  import Text
  import opened Options
  import opened Runs
  import opened Triage
  import opened TriageSafety

  /** A use case under way. Analysis: the ticket as it was read; then also the analysis it recorded. Correction: the
      ticket as it was read and the patch; then the row it will write. Deletion: the department and the default one;
      then, its tickets moved, the department. Edit of a department: the row as it was read and the patch, its texts
      trimmed; then the row it will write. */
  datatype Flight =
    | Reading(org: nat, id: nat, was: Ticket)
    | Recorded(org: nat, id: nat, was: Ticket, a: Analysis)
    | Patching(org: nat, id: nat, was: Ticket, p: Patch, now: int)
    | Checked(org: nat, id: nat, was: Ticket)
    | Deleting(org: nat, dept: nat, to: nat)
    | Emptied(org: nat, dept: nat)
    | Editing(org: nat, dept: nat, row: Department, name: Option<string>, description: Option<string>,
        category: CategoryField)
    | Approved(org: nat, dept: nat, row: Department)
    | Ended

  datatype World = World(s: State, flights: seq<Flight>)

  /** `Plain` are whole use cases, of which analysis, correction, deletion and edit can also go step by step. */
  datatype Step =
    | Plain(op: Op)
    | BeginAnalysis(org: nat, id: nat)
    | Record(i: nat, result: Option<Prediction>)
    | WriteBack(i: nat)
    | BeginPatch(org: nat, id: nat, p: Patch, scope: Scope, now: int)
    | Compare(i: nat)
    | WritePatch(i: nat)
    | BeginDelete(org: nat, dept: nat)
    | MoveTickets(i: nat)
    | DropDepartment(i: nat)
    | BeginEdit(org: nat, dept: nat, name: Option<string>, description: Option<string>, category: CategoryField)
    | Approve(i: nat)
    | WriteEdit(i: nat)

  /** Whether the prediction changes anything about the row that was read. */
  predicate Changes(was: Ticket, a: Analysis)
    requires a.dept.Some?
  {
    (!was.priorityOverridden && was.priority != a.priority) || (!was.deptOverridden && was.dept != a.dept.value)
  }

  /** UPDATE tickets SET every column: refused if the department is gone. */
  function Put(s: State, id: nat, t: Ticket): State {
    if t.dept in s.depts && id in s.tickets then s.(tickets := s.tickets[id := t]) else s
  }

  function Written(s: State, id: nat, was: Ticket, a: Analysis): State
    requires a.dept.Some?
  {
    if Changes(was, a) then Put(s, id, Applied(was, a)) else s
  }

  /** The table's two unique indexes: no other department of the organization has the name or the category. */
  predicate Unclaimed(s: State, org: nat, id: nat, row: Department) {
    !NameTaken(s, org, row.name, Some(id)) &&
      (row.category.Some? ==> !CategoryTaken(s, org, row.category.value, Some(id)))
  }

  /** UPDATE departments SET name, description, category: refused by a unique index; nothing to update if it is gone. */
  function PutDepartment(s: State, org: nat, id: nat, row: Department): State {
    if InOrg(s, org, id) && Unclaimed(s, org, id, row) then s.(depts := s.depts[id := Rewritten(s.depts[id], row)])
      else s
  }

  function Rewritten(d: Department, row: Department): Department {
    d.(name := row.name, description := row.description, category := row.category)
  }

  ghost predicate StepEnabled(w: World, step: Step) {
    match step
    case Plain(op) => Enabled(w.s, op)
    case BeginAnalysis(org, id) => TicketIn(w.s, org, id)
    case Record(i, _) => i < |w.flights| && w.flights[i].Reading?
    case WriteBack(i) => i < |w.flights| && w.flights[i].Recorded? && w.flights[i].a.dept.Some?
    case BeginPatch(org, id, p, scope, _) =>
      TicketIn(w.s, org, id) && Allows(scope, w.s.tickets[id]) && CheckCustomerPatch(w.s.tickets[id], p, scope).Done?
    case Compare(i) => i < |w.flights| && w.flights[i].Patching?
    case WritePatch(i) => i < |w.flights| && w.flights[i].Checked?
    case BeginDelete(org, d) => InOrg(w.s, org, d) && !w.s.depts[d].isDefault && DefaultOf(w.s, org).Some?
    case MoveTickets(i) => i < |w.flights| && w.flights[i].Deleting?
    case DropDepartment(i) => i < |w.flights| && w.flights[i].Emptied?
    case BeginEdit(org, d, _, _, _) => InOrg(w.s, org, d)
    case Approve(i) => i < |w.flights| && w.flights[i].Editing?
    case WriteEdit(i) => i < |w.flights| && w.flights[i].Approved?
  }

  /** What an edit's checks say of the row it read, on the tables as they are now. */
  function Verdict(s: State, f: Flight): Flight
    requires f.Editing?
  {
    var (row, reply) := Patched(s, f.org, f.dept, f.row, f.name, f.description, f.category);
    if reply.Done? then Approved(f.org, f.dept, row) else Ended
  }

  /** What the flight is after its next step. */
  ghost function Onward(s: State, f: Flight, step: Step): Flight {
    match step
    case Record(_, result) =>
      if f.Reading? && AnalysisFor(s, f.org, result).Some? && TicketIn(s, f.org, f.id)
      then Recorded(f.org, f.id, f.was, AnalysisFor(s, f.org, result).value) else Ended
    case Compare(_) =>
      if f.Patching? && CheckFields(s, f.org, f.p).Done?
      then Checked(f.org, f.id, WithPatch(f.was, f.p, Latest(s, f.id), f.now)) else Ended
    case MoveTickets(_) => if f.Deleting? then Emptied(f.org, f.dept) else Ended
    case Approve(_) => if f.Editing? then Verdict(s, f) else Ended
    case _ => Ended
  }

  /** What a flight's next step does to the tables. */
  ghost function Effect(s: State, f: Flight, step: Step): State {
    match step
    case Record(_, result) =>
      if f.Reading? && AnalysisFor(s, f.org, result).Some? && TicketIn(s, f.org, f.id)
      then Append(s, f.id, AnalysisFor(s, f.org, result).value) else s
    case WriteBack(_) => if f.Recorded? && f.a.dept.Some? then Written(s, f.id, f.was, f.a) else s
    case WritePatch(_) => if f.Checked? then Put(s, f.id, f.was) else s
    case MoveTickets(_) => if f.Deleting? then Reassign(s, f.org, f.dept, f.to) else s
    case DropDepartment(_) => if f.Emptied? && InOrg(s, f.org, f.dept) then Remove(s, f.dept).0 else s
    case WriteEdit(_) => if f.Approved? then PutDepartment(s, f.org, f.dept, f.row) else s
    case _ => s
  }

  predicate Starts(step: Step) { step.BeginAnalysis? || step.BeginPatch? || step.BeginDelete? || step.BeginEdit? }

  ghost function Started(s: State, step: Step): Flight
    requires Starts(step)
  {
    match step
    case BeginAnalysis(org, id) => if id in s.tickets then Reading(org, id, s.tickets[id]) else Ended
    case BeginPatch(org, id, p, _, now) => if id in s.tickets then Patching(org, id, s.tickets[id], p, now) else Ended
    case BeginDelete(org, d) => if DefaultOf(s, org).Some? then Deleting(org, d, DefaultOf(s, org).value) else Ended
    case BeginEdit(org, d, name, description, category) =>
      if d in s.depts then Editing(org, d, s.depts[d], name, description, category) else Ended
  }

  ghost function Next(w: World, step: Step): World {
    if step.Plain? then w.(s := Triage.Step(w.s, step.op))
    else if Starts(step) then w.(flights := w.flights + [Started(w.s, step)])
    else if step.i >= |w.flights| then w
    else World(Effect(w.s, w.flights[step.i], step), w.flights[step.i := Onward(w.s, w.flights[step.i], step)])
  }

  /** A new department's id is fresh: no use case under way remembers it. */
  ghost predicate FreshFor(w: World, step: Step) {
    step.Plain? && step.op.OpCreateDepartment? ==>
      forall i :: 0 <= i < |w.flights| ==> !Remembers(w.flights[i], step.op.id)
  }

  predicate Remembers(f: Flight, d: nat) {
    || (HoldsRow(f) && f.was.dept == d) || (f.Recorded? && f.a.dept == Some(d))
    || ((f.Deleting? || f.Emptied? || f.Editing? || f.Approved?) && f.dept == d)
  }

  ghost predicate Allowed(w: World, step: Step) { StepEnabled(w, step) && FreshFor(w, step) }

  ghost predicate AllAllowed(w: World, steps: seq<Step>) { LawfulBy(Allowed, Next, w, steps) }

  ghost function AfterAll(w: World, steps: seq<Step>): World { RunBy(Next, w, steps) }

  // ------------------------------------------------- what interleaving keeps

  predicate HoldsRow(f: Flight) { f.Reading? || f.Recorded? || f.Patching? || f.Checked? }

  /** A department that is there belongs to this organization. */
  predicate OwnIfThere(s: State, org: nat, d: nat) { d in s.depts ==> s.depts[d].org == org }

  /** What a row read at any time still has. */
  ghost predicate RowGood(s: State, org: nat, id: nat, was: Ticket) {
    && id in s.tickets && s.tickets[id].org == org && SameQuestion(s.tickets[id], was)
    && was.customer in s.customers && s.customers[was.customer] == org
    && was.messages != [] && (was.resolvedAt.Some? <==> was.status == Resolved) && OwnIfThere(s, org, was.dept)
  }

  ghost predicate FlightGood(s: State, f: Flight) {
    && (HoldsRow(f) ==> RowGood(s, f.org, f.id, f.was))
    && (f.Recorded? && f.a.dept.Some? ==> OwnIfThere(s, f.org, f.a.dept.value))
    && (f.Deleting? ==> IsDefaultOf(s, f.org, f.to) && f.dept != f.to)
    && (f.Deleting? || f.Emptied? ==>
          OwnIfThere(s, f.org, f.dept) && (f.dept in s.depts ==> !s.depts[f.dept].isDefault))
  }

  ghost predicate WorldGood(w: World) {
    Consistent(false, w.s) && forall i :: 0 <= i < |w.flights| ==> FlightGood(w.s, w.flights[i])
  }

  /** Customers stay; tickets stay, in their organization and with what the classifier is shown of them; departments
      other than a new one are old ones, as default as they were, and the default ones stay. */
  ghost predicate Spares(s: State, s': State, added: Option<nat>) {
    && s'.customers == s.customers && s'.orgs == s.orgs && s'.threshold == s.threshold
    && (forall d :: d in s'.depts && added != Some(d) ==> d in s.depts && SameStanding(s.depts[d], s'.depts[d]))
    && (forall d :: d in s.depts && s.depts[d].isDefault ==> d in s'.depts && SameStanding(s.depts[d], s'.depts[d]))
    && (forall t :: t in s.tickets ==> t in s'.tickets && SameQuestion(s.tickets[t], s'.tickets[t]))
  }

  predicate SameStanding(d: Department, d': Department) { d'.org == d.org && d'.isDefault == d.isDefault }

  predicate SameQuestion(t: Ticket, t': Ticket) { t'.org == t.org && ClassifyInput(t') == ClassifyInput(t) }

  lemma CreateSpares(s: State, org: nat, id: nat, name: string, description: string, category: CategoryField)
    requires id !in s.depts
    ensures Spares(s, CreateDepartment(s, org, id, name, description, category).0, Some(id))
  {
  }

  lemma OneReplaced(s: State, id: nat, d: Department)
    requires id in s.depts && SameStanding(s.depts[id], d)
    ensures Spares(s, s.(depts := s.depts[id := d]), None)
  {
  }

  lemma PatchedStanding(s: State, org: nat, id: nat, name: Option<string>, description: Option<string>,
      category: CategoryField)
    requires InOrg(s, org, id)
    ensures SameStanding(s.depts[id], Patched(s, org, id, s.depts[id], name, description, category).0)
  {
  }

  lemma PatchSpares(s: State, org: nat, id: nat, name: Option<string>, description: Option<string>,
      category: CategoryField)
    ensures Spares(s, UpdateDepartment(s, org, id, name, description, category).0, None)
  {
    if InOrg(s, org, id) {
      PatchedStanding(s, org, id, name, description, category);
      OneReplaced(s, id, Patched(s, org, id, s.depts[id], name, description, category).0);
    }
  }

  lemma ReassignSpares(s: State, org: nat, from: nat, to: nat)
    ensures Spares(s, Reassign(s, org, from, to), None)
  {
  }

  lemma RemoveSpares(s: State, d: nat)
    requires d in s.depts && !s.depts[d].isDefault
    ensures Spares(s, Remove(s, d).0, None)
  {
  }

  lemma SparesChains(s: State, s': State, s'': State)
    requires Spares(s, s', None) && Spares(s', s'', None)
    ensures Spares(s, s'', None)
  {
  }

  lemma DeleteSpares(s: State, org: nat, id: nat)
    ensures Spares(s, DeleteDepartment(s, org, id).0, None)
  {
    if InOrg(s, org, id) && !s.depts[id].isDefault && DefaultOf(s, org).Some? {
      var s' := Reassign(s, org, id, DefaultOf(s, org).value);
      ReassignSpares(s, org, id, DefaultOf(s, org).value);
      RemoveSpares(s', id);
      SparesChains(s, s', Remove(s', id).0);
    }
  }

  lemma TicketSpares(s: State, org: nat, id: nat, named: Option<nat>, subject: string, body: string, scope: Scope)
    requires id !in s.tickets
    ensures Spares(s, CreateTicket(s, org, id, named, subject, body, scope).0, None)
  {
  }

  lemma OneTicketReplaced(s: State, id: nat, t: Ticket)
    requires id in s.tickets && SameQuestion(s.tickets[id], t)
    ensures Spares(s, s.(tickets := s.tickets[id := t]), None)
  {
  }

  lemma PatchAsksTheSame(t: Ticket, p: Patch, latest: Option<Analysis>, now: int)
    requires p.priority != Some(Unknown) && p.status != Some(Unknown)
    ensures SameQuestion(t, WithPatch(t, p, latest, now))
  {
  }

  lemma CorrectionSpares(s: State, org: nat, id: nat, p: Patch, scope: Scope, now: int)
    ensures Spares(s, UpdateTicket(s, org, id, p, scope, now).0, None)
  {
    if CheckPatch(s, org, id, p, scope).Done? {
      PatchAsksTheSame(s.tickets[id], p, Latest(s, id), now);
      OneTicketReplaced(s, id, WithPatch(s.tickets[id], p, Latest(s, id), now));
    }
  }

  lemma AnalysisSpares(s: State, org: nat, id: nat, result: Option<Prediction>)
    ensures Spares(s, Analyze(s, org, id, result).0, None)
  {
  }

  lemma OpSpares(s: State, op: Op)
    requires Enabled(s, op)
    ensures Spares(s, Triage.Step(s, op), if op.OpCreateDepartment? then Some(op.id) else None)
  {
    match op
    case OpCreateDepartment(org, id, name, description, category) =>
      CreateSpares(s, org, id, Text.TrimSpace(name), Text.TrimSpace(description), category);
    case OpUpdateDepartment(org, id, name, description, category) =>
      PatchSpares(s, org, id, Trimmed(name), Trimmed(description), category);
    case OpDeleteDepartment(org, id) => DeleteSpares(s, org, id);
    case OpCreateTicket(org, id, named, subject, body, scope) =>
      TicketSpares(s, org, id, named, Text.TrimSpace(subject), body, scope);
    case OpAnalyze(org, id, result) => AnalysisSpares(s, org, id, result);
    case OpUpdateTicket(org, id, patch, scope, now) => CorrectionSpares(s, org, id, patch, scope, now);
    case OpPlace(_, _) =>
  }

  lemma FlightSurvives(s: State, s': State, f: Flight, added: Option<nat>)
    requires FlightGood(s, f) && Spares(s, s', added) && (added.Some? ==> !Remembers(f, added.value))
    ensures FlightGood(s', f)
  {
  }

  lemma PlainKeeps(w: World, op: Op)
    requires WorldGood(w) && Enabled(w.s, op) && FreshFor(w, Plain(op))
    ensures WorldGood(Next(w, Plain(op)))
  {
    StepKeeps(false, w.s, op);
    OpSpares(w.s, op);
    var n := Next(w, Plain(op));
    forall i | 0 <= i < |n.flights| ensures FlightGood(n.s, n.flights[i]) {
      FlightSurvives(w.s, n.s, w.flights[i], if op.OpCreateDepartment? then Some(op.id) else None);
    }
  }

  lemma StartGood(s: State, step: Step)
    requires Consistent(false, s) && Starts(step) && StepEnabled(World(s, []), step)
    ensures FlightGood(s, Started(s, step))
  {
    if step.BeginDelete? {
      LookupsAreDetermined(s, step.org);
    } else if !step.BeginEdit? {
      assert TicketGood(false, s.depts, s.customers, s.tickets[step.id], AnalysesOf(s, step.id));
    }
  }

  lemma StartKeeps(w: World, step: Step)
    requires WorldGood(w) && Starts(step) && StepEnabled(w, step)
    ensures WorldGood(Next(w, step))
  {
    StartGood(w.s, step);
  }

  lemma AppendKeeps(s: State, org: nat, id: nat, result: Option<Prediction>)
    requires Consistent(false, s) && TicketIn(s, org, id) && AnalysisFor(s, org, result).Some?
    ensures Consistent(false, Append(s, id, AnalysisFor(s, org, result).value))
  {
    var a := AnalysisFor(s, org, result).value;
    var t, all := s.tickets[id], AnalysesOf(s, id);
    AnalysisForMeans(s, org, result);
    assert TicketGood(false, s.depts, s.customers, t, all);
    forall k | 0 <= k < |all + [a]| ensures AnalysisGood(s.depts, t.org, (all + [a])[k]) {
      assert k < |all| ==> AnalysisGood(s.depts, t.org, all[k]);
    }
    TicketSetKeeps(false, s, id, t, all + [a]);
    assert s.tickets[id := t] == s.tickets;
  }

  lemma AppendSpares(s: State, id: nat, a: Analysis)
    ensures Spares(s, Append(s, id, a), None)
  {
  }

  /** Row t may be written over any row of its ticket. */
  lemma PutKeeps(s: State, org: nat, id: nat, t: Ticket)
    requires Consistent(false, s) && RowGood(s, org, id, t)
    ensures Consistent(false, Put(s, id, t))
  {
    if t.dept in s.depts {
      assert TicketGood(false, s.depts, s.customers, s.tickets[id], AnalysesOf(s, id));
      TicketSetKeeps(false, s, id, t, AnalysesOf(s, id));
      assert s.analyses[id := AnalysesOf(s, id)] == s.analyses;
    }
  }

  /** Rows being written may replace what the classifier was shown only by the same. */
  lemma PutSpares(s: State, id: nat, t: Ticket)
    requires id in s.tickets && SameQuestion(s.tickets[id], t)
    ensures Spares(s, Put(s, id, t), None)
  {
    OneTicketReplaced(s, id, t);
  }

  lemma MoveKeeps(s: State, org: nat, d: nat, to: nat)
    requires Consistent(false, s) && IsDefaultOf(s, org, to)
    ensures Consistent(false, Reassign(s, org, d, to))
  {
    var s' := Reassign(s, org, d, to);
    forall t | t in s'.tickets ensures TicketGood(false, s'.depts, s'.customers, s'.tickets[t], AnalysesOf(s', t)) {
      assert TicketGood(false, s.depts, s.customers, s.tickets[t], AnalysesOf(s, t));
    }
  }

  lemma RemoveKeeps(s: State, d: nat)
    requires Consistent(false, s) && d in s.depts && !s.depts[d].isDefault
    ensures Consistent(false, Remove(s, d).0)
  {
    if Remove(s, d).1.Done? {
      var s' := Remove(s, d).0;
      RemainingGood(s, d);
      forall t | t in s'.tickets ensures TicketGood(false, s'.depts, s'.customers, s'.tickets[t], AnalysesOf(s', t)) {
        assert TicketGood(false, s.depts, s.customers, s.tickets[t], AnalysesOf(s, t));
        WithoutGood(s.depts, s.customers, s.tickets[t], AnalysesOf(s, t), d);
      }
    }
  }

  lemma WithoutGood(depts: map<nat, Department>, customers: map<nat, nat>, t: Ticket, all: seq<Analysis>, d: nat)
    requires TicketGood(false, depts, customers, t, all) && t.dept != d
    ensures TicketGood(false, depts - {d}, customers, t, ForgetAll(all, d))
  {
    forall k | 0 <= k < |all| ensures AnalysisGood(depts - {d}, t.org, ForgetAll(all, d)[k]) {
      assert AnalysisGood(depts, t.org, all[k]);
    }
  }

  lemma WithPatchGood(s: State, org: nat, id: nat, was: Ticket, p: Patch, latest: Option<Analysis>, now: int)
    requires RowGood(s, org, id, was) && CheckFields(s, org, p).Done?
    ensures RowGood(s, org, id, WithPatch(was, p, latest, now))
  {
  }

  lemma AppliedRowGood(s: State, org: nat, id: nat, was: Ticket, a: Analysis)
    requires RowGood(s, org, id, was) && a.dept.Some? && OwnIfThere(s, org, a.dept.value)
    ensures RowGood(s, org, id, Applied(was, a))
  {
  }

  /** The next step of a use case under way, seen on its own. */
  ghost predicate Moves(s: State, s': State, f': Flight) {
    Consistent(false, s') && Spares(s, s', None) && FlightGood(s', f')
  }

  lemma RecordMoves(s: State, org: nat, id: nat, was: Ticket, result: Option<Prediction>)
    requires Consistent(false, s) && FlightGood(s, Reading(org, id, was)) && AnalysisFor(s, org, result).Some?
    ensures var a := AnalysisFor(s, org, result).value; Moves(s, Append(s, id, a), Recorded(org, id, was, a))
  {
    AppendKeeps(s, org, id, result);
    AppendSpares(s, id, AnalysisFor(s, org, result).value);
    AnalysisForMeans(s, org, result);
  }

  lemma RowMoves(s: State, org: nat, id: nat, t: Ticket)
    requires Consistent(false, s) && RowGood(s, org, id, t)
    ensures Moves(s, Put(s, id, t), Ended)
  {
    if t.dept in s.depts {
      PutKeeps(s, org, id, t);
      PutSpares(s, id, t);
    } else {
      StillMoves(s, Ended);
    }
  }

  lemma WriteMoves(s: State, org: nat, id: nat, was: Ticket, a: Analysis)
    requires Consistent(false, s) && FlightGood(s, Recorded(org, id, was, a)) && a.dept.Some?
    ensures Moves(s, Written(s, id, was, a), Ended)
  {
    if Changes(was, a) {
      AppliedRowGood(s, org, id, was, a);
      RowMoves(s, org, id, Applied(was, a));
    } else {
      StillMoves(s, Ended);
    }
  }

  lemma StillMoves(s: State, f: Flight)
    requires Consistent(false, s) && FlightGood(s, f)
    ensures Moves(s, s, f)
  {
  }

  lemma ReassignMoves(s: State, org: nat, d: nat, to: nat)
    requires Consistent(false, s) && FlightGood(s, Deleting(org, d, to))
    ensures Moves(s, Reassign(s, org, d, to), Emptied(org, d))
  {
    MoveKeeps(s, org, d, to);
    ReassignSpares(s, org, d, to);
  }

  lemma DropMoves(s: State, org: nat, d: nat)
    requires Consistent(false, s) && FlightGood(s, Emptied(org, d)) && InOrg(s, org, d)
    ensures Moves(s, Remove(s, d).0, Ended)
  {
    RemoveKeeps(s, d);
    RemoveSpares(s, d);
  }

  lemma EditMoves(s: State, org: nat, id: nat, row: Department)
    requires Consistent(false, s)
    ensures Moves(s, PutDepartment(s, org, id, row), Ended)
  {
    if InOrg(s, org, id) && Unclaimed(s, org, id, row) {
      var d := Rewritten(s.depts[id], row);
      PatchedGood(s, org, id, d);
      ExtendsKeeps(false, s, s.depts[id := d]);
      OneReplaced(s, id, d);
    } else {
      StillMoves(s, Ended);
    }
  }

  lemma ApproveMoves(s: State, f: Flight, step: Step, s': State, f': Flight)
    requires Consistent(false, s) && FlightGood(s, f) && step.Approve?
    requires s' == Effect(s, f, step) && f' == Onward(s, f, step)
    ensures Moves(s, s', f')
  {
    assert s' == s && (f' == Ended || f'.Approved?);
    StillMoves(s, f');
  }

  lemma WriteEditMoves(s: State, f: Flight, step: Step, s': State, f': Flight)
    requires Consistent(false, s) && FlightGood(s, f) && step.WriteEdit?
    requires s' == Effect(s, f, step) && f' == Onward(s, f, step)
    ensures Moves(s, s', f')
  {
    assert f' == Ended;
    if f.Approved? {
      assert s' == PutDepartment(s, f.org, f.dept, f.row);
      EditMoves(s, f.org, f.dept, f.row);
    } else {
      assert s' == s;
      StillMoves(s, Ended);
    }
  }

  lemma RecordStepMoves(s: State, f: Flight, step: Step, s': State, f': Flight)
    requires Consistent(false, s) && FlightGood(s, f) && step.Record?
    requires s' == Effect(s, f, step) && f' == Onward(s, f, step)
    ensures Moves(s, s', f')
  {
    if f'.Recorded? {
      assert s' == Append(s, f.id, f'.a) && f' == Recorded(f.org, f.id, f.was, f'.a);
      RecordMoves(s, f.org, f.id, f.was, step.result);
    } else {
      assert s' == s && f' == Ended;
      StillMoves(s, Ended);
    }
  }

  lemma WriteBackMoves(s: State, f: Flight, step: Step, s': State, f': Flight)
    requires Consistent(false, s) && FlightGood(s, f) && step.WriteBack?
    requires s' == Effect(s, f, step) && f' == Onward(s, f, step)
    ensures Moves(s, s', f')
  {
    assert f' == Ended;
    if f.Recorded? && f.a.dept.Some? {
      assert s' == Written(s, f.id, f.was, f.a);
      WriteMoves(s, f.org, f.id, f.was, f.a);
    } else {
      assert s' == s;
      StillMoves(s, Ended);
    }
  }

  lemma CompareMoves(s: State, f: Flight, step: Step, s': State, f': Flight)
    requires Consistent(false, s) && FlightGood(s, f) && step.Compare?
    requires s' == Effect(s, f, step) && f' == Onward(s, f, step)
    ensures Moves(s, s', f')
  {
    assert s' == s;
    if f'.Checked? {
      assert f' == Checked(f.org, f.id, WithPatch(f.was, f.p, Latest(s, f.id), f.now));
      WithPatchGood(s, f.org, f.id, f.was, f.p, Latest(s, f.id), f.now);
    } else {
      assert f' == Ended;
    }
    StillMoves(s, f');
  }

  lemma WritePatchMoves(s: State, f: Flight, step: Step, s': State, f': Flight)
    requires Consistent(false, s) && FlightGood(s, f) && step.WritePatch?
    requires s' == Effect(s, f, step) && f' == Onward(s, f, step)
    ensures Moves(s, s', f')
  {
    assert f' == Ended;
    if f.Checked? {
      assert s' == Put(s, f.id, f.was);
      RowMoves(s, f.org, f.id, f.was);
    } else {
      assert s' == s;
      StillMoves(s, Ended);
    }
  }

  lemma MoveStepMoves(s: State, f: Flight, step: Step, s': State, f': Flight)
    requires Consistent(false, s) && FlightGood(s, f) && step.MoveTickets?
    requires s' == Effect(s, f, step) && f' == Onward(s, f, step)
    ensures Moves(s, s', f')
  {
    if f.Deleting? {
      assert s' == Reassign(s, f.org, f.dept, f.to) && f' == Emptied(f.org, f.dept);
      ReassignMoves(s, f.org, f.dept, f.to);
    } else {
      StillMoves(s, Ended);
    }
  }

  lemma DropStepMoves(s: State, f: Flight, step: Step, s': State, f': Flight)
    requires Consistent(false, s) && FlightGood(s, f) && step.DropDepartment?
    requires s' == Effect(s, f, step) && f' == Onward(s, f, step)
    ensures Moves(s, s', f')
  {
    assert f' == Ended;
    if f.Emptied? && InOrg(s, f.org, f.dept) {
      assert s' == Remove(s, f.dept).0;
      DropMoves(s, f.org, f.dept);
    } else {
      assert s' == s;
      StillMoves(s, Ended);
    }
  }

  lemma TicketStepMoves(s: State, f: Flight, step: Step, s': State, f': Flight)
    requires Consistent(false, s) && FlightGood(s, f) && s' == Effect(s, f, step) && f' == Onward(s, f, step)
    requires step.Record? || step.WriteBack? || step.Compare? || step.WritePatch?
    ensures Moves(s, s', f')
  {
    if step.Record? {
      RecordStepMoves(s, f, step, s', f');
    } else if step.WriteBack? {
      WriteBackMoves(s, f, step, s', f');
    } else if step.Compare? {
      CompareMoves(s, f, step, s', f');
    } else {
      WritePatchMoves(s, f, step, s', f');
    }
  }

  lemma DepartmentStepMoves(s: State, f: Flight, step: Step, s': State, f': Flight)
    requires Consistent(false, s) && FlightGood(s, f) && s' == Effect(s, f, step) && f' == Onward(s, f, step)
    requires step.MoveTickets? || step.DropDepartment? || step.Approve? || step.WriteEdit?
    ensures Moves(s, s', f')
  {
    if step.MoveTickets? {
      MoveStepMoves(s, f, step, s', f');
    } else if step.DropDepartment? {
      DropStepMoves(s, f, step, s', f');
    } else if step.Approve? {
      ApproveMoves(s, f, step, s', f');
    } else {
      WriteEditMoves(s, f, step, s', f');
    }
  }

  lemma FlightMoves(s: State, f: Flight, step: Step)
    requires Consistent(false, s) && FlightGood(s, f) && !step.Plain? && !Starts(step)
    ensures Moves(s, Effect(s, f, step), Onward(s, f, step))
  {
    if step.Record? || step.WriteBack? || step.Compare? || step.WritePatch? {
      TicketStepMoves(s, f, step, Effect(s, f, step), Onward(s, f, step));
    } else {
      DepartmentStepMoves(s, f, step, Effect(s, f, step), Onward(s, f, step));
    }
  }

  lemma FlightKeeps(w: World, step: Step)
    requires WorldGood(w) && !step.Plain? && !Starts(step) && step.i < |w.flights|
    ensures WorldGood(Next(w, step))
  {
    var f := w.flights[step.i];
    var s' := Effect(w.s, f, step);
    FlightMoves(w.s, f, step);
    forall k | 0 <= k < |w.flights| && k != step.i ensures FlightGood(s', w.flights[k]) {
      FlightSurvives(w.s, s', w.flights[k], None);
    }
  }

  lemma NextKeeps(w: World, step: Step)
    requires WorldGood(w) && Allowed(w, step)
    ensures WorldGood(Next(w, step))
  {
    if step.Plain? {
      PlainKeeps(w, step.op);
    } else if Starts(step) {
      StartKeeps(w, step);
    } else {
      FlightKeeps(w, step);
    }
  }

  /** Main result: however analyses, corrections, deletions and edits overlap, with one another and with every other
      use case, every ticket, prediction and placement stays in a live department of its own organization, and every
      organization keeps exactly one default department, distinct names and at most one department per category. */
  lemma {:induction false} OverlapKeeps(w: World, steps: seq<Step>)
    requires WorldGood(w) && AllAllowed(w, steps)
    ensures WorldGood(AfterAll(w, steps))
    decreases |steps|
  {
    if steps != [] {
      NextKeeps(w, steps[0]);
      OverlapKeeps(Next(w, steps[0]), steps[1..]);
    }
  }

  // ------------------------------------------------------ with nothing in between

  lemma BeginNext(s: State, org: nat, id: nat)
    requires TicketIn(s, org, id)
    ensures Next(World(s, []), BeginAnalysis(org, id)) == World(s, [Reading(org, id, s.tickets[id])])
  {
  }

  lemma RecordNext(s: State, org: nat, id: nat, was: Ticket, result: Option<Prediction>)
    requires TicketIn(s, org, id)
    ensures var made := AnalysisFor(s, org, result);
      Next(World(s, [Reading(org, id, was)]), Record(0, result)) ==
        if made.Some? then World(Append(s, id, made.value), [Recorded(org, id, was, made.value)]) else World(s, [Ended])
  {
  }

  lemma WriteBackNext(s: State, f: Flight)
    ensures Next(World(s, [f]), WriteBack(0)).s ==
      if f.Recorded? && f.a.dept.Some? then Written(s, f.id, f.was, f.a) else s
  {
  }

  lemma WrittenAtOnce(s: State, id: nat, a: Analysis)
    requires id in s.tickets && a.dept.Some? && Applied(s.tickets[id], a).dept in s.depts
    ensures Written(Append(s, id, a), id, s.tickets[id], a) ==
      Append(s, id, a).(tickets := s.tickets[id := Applied(s.tickets[id], a)])
  {
    if !Changes(s.tickets[id], a) {
      assert Applied(s.tickets[id], a) == s.tickets[id];
      assert s.tickets[id := s.tickets[id]] == s.tickets;
    }
  }

  /** With nothing in between, an analysis step by step is the analysis. */
  lemma UnhurriedIsAnalyze(s: State, org: nat, id: nat, result: Option<Prediction>)
    requires Consistent(false, s) && TicketIn(s, org, id)
    ensures AfterAll(World(s, []), [BeginAnalysis(org, id), Record(0, result), WriteBack(0)]).s ==
      Analyze(s, org, id, result).0
  {
    var was := s.tickets[id];
    RunByThree(Next, World(s, []), [BeginAnalysis(org, id), Record(0, result), WriteBack(0)]);
    BeginNext(s, org, id);
    RecordNext(s, org, id, was, result);
    if AnalysisFor(s, org, result).Some? {
      var a := AnalysisFor(s, org, result).value;
      AnalysisForMeans(s, org, result);
      assert TicketGood(false, s.depts, s.customers, was, AnalysesOf(s, id));
      WriteBackNext(Append(s, id, a), Recorded(org, id, was, a));
      WrittenAtOnce(s, id, a);
    } else {
      WriteBackNext(s, Ended);
    }
  }

  lemma BeginPatchNext(s: State, org: nat, id: nat, p: Patch, scope: Scope, now: int)
    requires id in s.tickets
    ensures Next(World(s, []), BeginPatch(org, id, p, scope, now)) ==
      World(s, [Patching(org, id, s.tickets[id], p, now)])
  {
  }

  lemma CompareNext(s: State, org: nat, id: nat, was: Ticket, p: Patch, now: int)
    ensures Next(World(s, [Patching(org, id, was, p, now)]), Compare(0)) ==
      World(s, [if CheckFields(s, org, p).Failed? then Ended
                else Checked(org, id, WithPatch(was, p, Latest(s, id), now))])
  {
  }

  lemma PatchedDept(s: State, org: nat, id: nat, p: Patch, now: int)
    requires Consistent(false, s) && TicketIn(s, org, id) && CheckFields(s, org, p).Done?
    ensures WithPatch(s.tickets[id], p, Latest(s, id), now).dept in s.depts
  {
    assert TicketGood(false, s.depts, s.customers, s.tickets[id], AnalysesOf(s, id));
  }

  lemma WritePatchNext(s: State, f: Flight)
    ensures Next(World(s, [f]), WritePatch(0)).s == if f.Checked? then Put(s, f.id, f.was) else s
  {
  }

  /** The same of a correction. */
  lemma UnhurriedIsUpdate(s: State, org: nat, id: nat, p: Patch, scope: Scope, now: int)
    requires Consistent(false, s) && StepEnabled(World(s, []), BeginPatch(org, id, p, scope, now))
    ensures AfterAll(World(s, []), [BeginPatch(org, id, p, scope, now), Compare(0), WritePatch(0)]).s ==
      UpdateTicket(s, org, id, p, scope, now).0
  {
    RunByThree(Next, World(s, []), [BeginPatch(org, id, p, scope, now), Compare(0), WritePatch(0)]);
    BeginPatchNext(s, org, id, p, scope, now);
    CompareNext(s, org, id, s.tickets[id], p, now);
    if CheckFields(s, org, p).Done? {
      PatchedDept(s, org, id, p, now);
      WritePatchNext(s, Checked(org, id, WithPatch(s.tickets[id], p, Latest(s, id), now)));
    } else {
      WritePatchNext(s, Ended);
    }
  }

  /** And of a deletion. */
  lemma UnhurriedIsDelete(s: State, org: nat, d: nat)
    requires Consistent(false, s) && StepEnabled(World(s, []), BeginDelete(org, d))
    ensures AfterAll(World(s, []), [BeginDelete(org, d), MoveTickets(0), DropDepartment(0)]).s ==
      DeleteDepartment(s, org, d).0
  {
    var steps := [BeginDelete(org, d), MoveTickets(0), DropDepartment(0)];
    RunByThree(Next, World(s, []), steps);
    var w1 := Next(World(s, []), steps[0]);
    var to := DefaultOf(s, org).value;
    assert w1 == World(s, [Deleting(org, d, to)]);
    assert Next(w1, steps[1]) == World(Reassign(s, org, d, to), [Emptied(org, d)]);
  }

  lemma BeginEditNext(s: State, org: nat, d: nat, name: Option<string>, description: Option<string>,
      category: CategoryField)
    requires d in s.depts
    ensures Next(World(s, []), BeginEdit(org, d, name, description, category)) ==
      World(s, [Editing(org, d, s.depts[d], name, description, category)])
  {
  }

  lemma ApproveNext(s: State, f: Flight)
    requires f.Editing?
    ensures Next(World(s, [f]), Approve(0)) == World(s, [Verdict(s, f)])
  {
  }

  lemma WriteEditNext(s: State, f: Flight)
    ensures Next(World(s, [f]), WriteEdit(0)).s == if f.Approved? then PutDepartment(s, f.org, f.dept, f.row) else s
  {
  }

  /** A row that has just been checked is refused by no index. */
  lemma CheckedIsUnclaimed(s: State, org: nat, d: nat, name: Option<string>, description: Option<string>,
      category: CategoryField)
    requires DeptsGood(s.orgs, s.depts) && InOrg(s, org, d)
    requires Patched(s, org, d, s.depts[d], name, description, category).1 == Done
    ensures var row := Patched(s, org, d, s.depts[d], name, description, category).0;
      Unclaimed(s, org, d, row) && Rewritten(s.depts[d], row) == row
  {
    forall e | e in s.depts && e != d && s.depts[e].org == org
      ensures s.depts[e].name != s.depts[d].name
      ensures s.depts[d].category.Some? ==> s.depts[e].category != s.depts[d].category
    {
      assert !SameName(s.depts, e, d) && !SameCategory(s.depts, e, d);
    }
  }

  /** And of an edit. */
  lemma UnhurriedIsEdit(s: State, org: nat, d: nat, name: Option<string>, description: Option<string>,
      category: CategoryField)
    requires Consistent(false, s) && InOrg(s, org, d)
    ensures AfterAll(World(s, []), [BeginEdit(org, d, name, description, category), Approve(0), WriteEdit(0)]).s ==
      UpdateDepartment(s, org, d, name, description, category).0
  {
    var f := Editing(org, d, s.depts[d], name, description, category);
    RunByThree(Next, World(s, []), [BeginEdit(org, d, name, description, category), Approve(0), WriteEdit(0)]);
    BeginEditNext(s, org, d, name, description, category);
    ApproveNext(s, f);
    WriteEditNext(s, Verdict(s, f));
    if Verdict(s, f).Approved? { CheckedIsUnclaimed(s, org, d, name, description, category); }
  }
}

/** Departments, tickets, analyses and human corrections: what each use case does to the organization's data. */
module Triage {
  import opened Options
  import opened Text

  datatype Priority = Low | Normal | High | Urgent
  datatype Category = TechnicalIssue | Integration | PaymentOps | Billing | Onboarding | HowTo | AccountAccess
      | FeatureRequest | Sales | Compliance
  datatype Status = Open | InProgress | PendingCustomer | Resolved | Closed

  /** Text from outside that should be one of a fixed set of labels. */
  datatype Label<T> = Known(it: T) | Unknown

  /** An optional category field in a request: left out, the empty string, or a label. */
  datatype CategoryField = Absent | Empty | Named(category: Label<Category>)

  datatype Department = Department(org: nat, name: string, description: string, category: Option<Category>,
      isDefault: bool)

  datatype Ticket = Ticket(org: nat, customer: nat, dept: nat, subject: string, status: Status, resolvedAt: Option<int>,
                           priority: Priority, priorityOverridden: bool, deptOverridden: bool, messages: seq<string>)

  /** `dept` becomes None when the department is deleted. */
  datatype Analysis = Analysis(priority: Priority, priorityConf: real, category: Category, categoryConf: real,
      dept: Option<nat>, needsReview: bool, fallback: bool)

  /** What the classifier returned. */
  datatype Prediction = Prediction(priority: Label<Priority>, priorityConf: real, category: Label<Category>,
      categoryConf: real)

  datatype Seat = Seat(org: nat, user: nat)

  /** Each ticket's analyses, oldest first. `threshold` is the review threshold in force. */
  datatype State = State(orgs: set<nat>, depts: map<nat, Department>, customers: map<nat, nat>,
      tickets: map<nat, Ticket>, analyses: map<nat, seq<Analysis>>, staff: map<Seat, nat>, threshold: real)

  datatype Error = NotFound | AlreadyExists | Invalid | Conflict | Forbidden | Internal
  datatype Reply = Done | Failed(error: Error)

  /** Staff, or one customer; a customer scope may lack its customer. */
  datatype Scope = OrgWide | CustomerScope(owner: Option<nat>)

  function ReviewThreshold(configured: real): real { if configured <= 0.0 then 0.6 else configured }

  // ------------------------------------------------------------------ lookups

  predicate HomeOf(depts: map<nat, Department>, org: nat, d: nat) { d in depts && depts[d].org == org }

  predicate InOrg(s: State, org: nat, d: nat) { HomeOf(s.depts, org, d) }

  /** Another department than `but` of this organization has the name. */
  predicate NameTaken(s: State, org: nat, name: string, but: Option<nat>) {
    exists d :: d in s.depts && s.depts[d].org == org && s.depts[d].name == name && but != Some(d)
  }

  predicate CategoryTaken(s: State, org: nat, category: Category, but: Option<nat>) {
    exists d :: d in s.depts && s.depts[d].org == org && s.depts[d].category == Some(category) && but != Some(d)
  }

  predicate Handles(s: State, org: nat, category: Category, d: nat)
  {
    InOrg(s, org, d) && s.depts[d].category == Some(category)
  }

  predicate DefaultFor(depts: map<nat, Department>, org: nat, d: nat) { HomeOf(depts, org, d) && depts[d].isDefault }

  predicate IsDefaultOf(s: State, org: nat, d: nat) { DefaultFor(s.depts, org, d) }

  ghost function HandlerOf(s: State, org: nat, category: Category): (r: Option<nat>)
    ensures r.Some? ==> Handles(s, org, category, r.value)
    ensures r.None? ==> forall d :: !Handles(s, org, category, d)
  {
    if d :| Handles(s, org, category, d) then Some(d) else None
  }

  ghost function DefaultOf(s: State, org: nat): (r: Option<nat>)
    ensures r.Some? ==> IsDefaultOf(s, org, r.value)
    ensures r.None? ==> forall d :: !IsDefaultOf(s, org, d)
  {
    if d :| IsDefaultOf(s, org, d) then Some(d) else None
  }

  predicate TicketIn(s: State, org: nat, t: nat) { t in s.tickets && s.tickets[t].org == org }

  function AnalysesOf(s: State, t: nat): seq<Analysis> { if t in s.analyses then s.analyses[t] else [] }

  function Latest(s: State, t: nat): Option<Analysis> {
    var all := AnalysesOf(s, t);
    if all == [] then None else Some(all[|all| - 1])
  }

  // -------------------------------------------------------------- departments

  /** A new department under a fresh id. It is never the default one. */
  function CreateDepartment(s: State, org: nat, id: nat, name: string, description: string,
      category: CategoryField): (State, Reply)
  {
    if NameTaken(s, org, name, None) then (s, Failed(AlreadyExists))
    else if !category.Named? then (s.(depts := s.depts[id := Department(org, name, description, None, false)]), Done)
    else if category.category.Unknown? then (s, Failed(Invalid))
    else if CategoryTaken(s, org, category.category.it, None) then (s, Failed(AlreadyExists))
    else (s.(depts := s.depts[id := Department(org, name, description, Some(category.category.it), false)]), Done)
  }

  /** Department d, as department id was read, patched; or why it cannot be patched. Names arrive trimmed. */
  function Patched(s: State, org: nat, id: nat, d: Department, name: Option<string>, description: Option<string>,
      category: CategoryField)
      : (Department, Reply)
  {
    if name.Some? && name.value == "" then (d, Failed(Invalid))
    else if name.Some? && NameTaken(s, org, name.value, Some(id)) then (d, Failed(AlreadyExists))
    else
      var d1 := d.(name := if name.Some? then name.value else d.name,
                   description := if description.Some? then description.value else d.description);
      match category
      case Absent => (d1, Done)
      case Empty => (d1.(category := None), Done)
      case Named(Unknown) => (d, Failed(Invalid))
      case Named(Known(c)) =>
        if CategoryTaken(s, org, c, Some(id)) then (d, Failed(AlreadyExists)) else (d1.(category := Some(c)), Done)
  }

  function UpdateDepartment(s: State, org: nat, id: nat, name: Option<string>, description: Option<string>,
      category: CategoryField)
      : (State, Reply)
  {
    if !InOrg(s, org, id) then (s, Failed(NotFound))
    else
      var (d, reply) := Patched(s, org, id, s.depts[id], name, description, category);
      if reply.Failed? then (s, reply) else (s.(depts := s.depts[id := d]), Done)
  }

  /** UPDATE tickets SET department_id = to WHERE organization_id = org AND department_id = from. */
  function Reassign(s: State, org: nat, from: nat, to: nat): State {
    s.(tickets := map t | t in s.tickets ::
      if s.tickets[t].org == org && s.tickets[t].dept == from then s.tickets[t].(dept := to) else s.tickets[t])
  }

  function Forget(a: Analysis, d: nat): Analysis { if a.dept == Some(d) then a.(dept := None) else a }

  function ForgetAll(all: seq<Analysis>, d: nat): (r: seq<Analysis>)
    ensures |r| == |all| && forall k :: 0 <= k < |all| ==> r[k] == Forget(all[k], d)
  {
    seq(|all|, k requires 0 <= k < |all| => Forget(all[k], d))
  }

  /** DELETE FROM departments: refused while tickets point there; people come back unassigned, predictions of it are
      cleared. */
  function Remove(s: State, d: nat): (State, Reply) {
    if exists t :: t in s.tickets && s.tickets[t].dept == d then (s, Failed(Internal))
    else
      (s.(depts := s.depts - {d},
          staff := map k | k in s.staff && s.staff[k] != d :: s.staff[k],
          analyses := map t | t in s.analyses :: ForgetAll(s.analyses[t], d)), Done)
  }

  ghost function DeleteDepartment(s: State, org: nat, id: nat): (State, Reply) {
    if !InOrg(s, org, id) then (s, Failed(NotFound))
    else if s.depts[id].isDefault then (s, Failed(Conflict))
    else if DefaultOf(s, org).None? then (s, Failed(NotFound))
    else Remove(Reassign(s, org, id, DefaultOf(s, org).value), id)
  }

  // ------------------------------------------------------------------ tickets

  /** Whose ticket it is: the caller's own id if the caller is a customer, whatever the request names. */
  function OwnerFor(named: Option<nat>, scope: Scope): (Option<nat>, Reply) {
    match scope
    case CustomerScope(owner) => if owner.None? then (None, Failed(Forbidden)) else (owner, Done)
    case OrgWide => if named.None? then (None, Failed(Invalid)) else (named, Done)
  }

  function NewTicket(org: nat, customer: nat, dept: nat, subject: string, body: string): Ticket {
    Ticket(org, customer, dept, subject, Open, None, Normal, false, false, [body])
  }

  ghost function CreateTicket(s: State, org: nat, id: nat, named: Option<nat>, subject: string, body: string,
      scope: Scope): (State, Reply)
  {
    var (owner, reply) := OwnerFor(named, scope);
    if reply.Failed? then (s, reply)
    else if !(owner.value in s.customers && s.customers[owner.value] == org) then (s, Failed(NotFound))
    else if DefaultOf(s, org).None? then (s, Failed(NotFound))
    else
      (s.(tickets := s.tickets[id := NewTicket(org, owner.value, DefaultOf(s, org).value, subject, body)],
        analyses := s.analyses[id := []]), Done)
  }

  // ----------------------------------------------------------------- analysis

  /** What the classifier is given: the subject and the first message. */
  function ClassifyInput(t: Ticket): (string, string) { (t.subject, if t.messages == [] then "" else t.messages[0]) }

  predicate Uncertain(p: Prediction, threshold: real) { p.priorityConf < threshold || p.categoryConf < threshold }

  /** The analyses table only holds confidences between 0 and 1. */
  predicate Storable(p: Prediction) { 0.0 <= p.priorityConf <= 1.0 && 0.0 <= p.categoryConf <= 1.0 }

  /** mapCategory: the department that handles the category, or the default one. */
  ghost function MapCategory(s: State, org: nat, category: Category): (Option<nat>, bool) {
    if HandlerOf(s, org, category).Some? then (HandlerOf(s, org, category), true) else (DefaultOf(s, org), false)
  }

  /** The analysis recorded for a prediction, or why none is. */
  ghost function AnalysisFor(s: State, org: nat, result: Option<Prediction>): Option<Analysis> {
    if result.None? || result.value.priority.Unknown? || result.value.category.Unknown? then None
    else
      var p := result.value;
      var (dept, mapped) := MapCategory(s, org, p.category.it);
      if dept.None? || !Storable(p) then None
      else Some(Analysis(p.priority.it, p.priorityConf, p.category.it, p.categoryConf, dept,
        Uncertain(p, s.threshold) || !mapped, !mapped))
  }

  /** The prediction applied to the fields nobody has corrected. */
  function Applied(t: Ticket, a: Analysis): Ticket
    requires a.dept.Some?
  {
    t.(priority := if t.priorityOverridden then t.priority else a.priority,
       dept := if t.deptOverridden then t.dept else a.dept.value)
  }

  function Append(s: State, t: nat, a: Analysis): State { s.(analyses := s.analyses[t := AnalysesOf(s, t) + [a]]) }

  /** Execute. An unreadable prediction is answered with an error and leaves no trace. */
  ghost function Analyze(s: State, org: nat, t: nat, result: Option<Prediction>): (State, Reply) {
    if !TicketIn(s, org, t) then (s, Failed(NotFound))
    else
      match AnalysisFor(s, org, result)
      case None => (s, Failed(AnalysisError(s, org, result)))
      case Some(a) => (Append(s, t, a).(tickets := s.tickets[t := Applied(s.tickets[t], a)]), Done)
  }

  ghost function AnalysisError(s: State, org: nat, result: Option<Prediction>): Error {
    if result.Some? && result.value.priority.Known? && result.value.category.Known? &&
      MapCategory(s, org, result.value.category.it).0.None?
    then NotFound else Internal
  }

  // -------------------------------------------------------------- corrections

  datatype Patch = Patch(priority: Option<Label<Priority>>, dept: Option<nat>, status: Option<Label<Status>>)

  predicate Allows(scope: Scope, t: Ticket) { scope.OrgWide? || scope.owner == Some(t.customer) }

  predicate IsResolved(t: Ticket) { t.status == Resolved || t.status == Closed }

  /** A customer may do one thing: move a resolved request of their own back to open. */
  function CheckCustomerPatch(t: Ticket, p: Patch, scope: Scope): Reply {
    if scope.OrgWide? then Done
    else if p.priority.Some? || p.dept.Some? || p.status.None? || p.status.value != Known(Open) then Failed(Forbidden)
    else if !IsResolved(t) then Failed(Conflict)
    else Done
  }

  /** A new priority; the flag compares it with the newest prediction, if there is one. */
  function WithPriority(t: Ticket, p: Priority, latest: Option<Analysis>): Ticket {
    t.(priority := p, priorityOverridden := if latest.Some? then latest.value.priority != p else t.priorityOverridden)
  }

  function WithDept(t: Ticket, d: nat, latest: Option<Analysis>): Ticket {
    t.(dept := d, deptOverridden :=
      if latest.Some? && latest.value.dept.Some? then latest.value.dept.value != d else t.deptOverridden)
  }

  function WithStatus(t: Ticket, status: Status, now: int): Ticket {
    t.(status := status,
      resolvedAt := if status != Resolved then None else if t.resolvedAt.None? then Some(now) else t.resolvedAt)
  }

  function WithPatch(t: Ticket, p: Patch, latest: Option<Analysis>, now: int): Ticket
    requires p.priority != Some(Unknown) && p.status != Some(Unknown)
  {
    var t1 := if p.priority.Some? then WithPriority(t, p.priority.value.it, latest) else t;
    var t2 := if p.dept.Some? then WithDept(t1, p.dept.value, latest) else t1;
    if p.status.Some? then WithStatus(t2, p.status.value.it, now) else t2
  }

  /** Whether each field of the patch can be applied. */
  function CheckFields(s: State, org: nat, p: Patch): Reply {
    if p.priority == Some(Unknown) then Failed(Invalid)
    else if p.dept.Some? && !InOrg(s, org, p.dept.value) then Failed(NotFound)
    else if p.status == Some(Unknown) then Failed(Invalid)
    else Done
  }

  /** Whether the patch may be applied: the caller's rights first, then each field in turn. */
  function CheckPatch(s: State, org: nat, id: nat, p: Patch, scope: Scope): Reply {
    if !TicketIn(s, org, id) || !Allows(scope, s.tickets[id]) then Failed(NotFound)
    else if CheckCustomerPatch(s.tickets[id], p, scope).Failed? then CheckCustomerPatch(s.tickets[id], p, scope)
    else CheckFields(s, org, p)
  }

  function UpdateTicket(s: State, org: nat, id: nat, p: Patch, scope: Scope, now: int): (State, Reply) {
    if CheckPatch(s, org, id, p, scope).Failed? then (s, CheckPatch(s, org, id, p, scope))
    else (s.(tickets := s.tickets[id := WithPatch(s.tickets[id], p, Latest(s, id), now)]), Done)
  }

  // --------------------------------------------------------------------- runs

  datatype Op =
    | OpCreateDepartment(org: nat, id: nat, name: string, description: string, category: CategoryField)
    | OpUpdateDepartment(org: nat, id: nat, newName: Option<string>, newDescription: Option<string>,
      category: CategoryField)
    | OpDeleteDepartment(org: nat, id: nat)
    | OpCreateTicket(org: nat, id: nat, named: Option<nat>, subject: string, body: string, scope: Scope)
    | OpAnalyze(org: nat, id: nat, result: Option<Prediction>)
    | OpUpdateTicket(org: nat, id: nat, patch: Patch, scope: Scope, now: int)
    | OpPlace(seat: Seat, dept: nat)

  /** New rows get fresh ids; staff are placed in departments of their organization. */
  predicate Enabled(s: State, op: Op) {
    match op
    case OpCreateDepartment(org, id, _, _, _) => org in s.orgs && id !in s.depts
    case OpCreateTicket(org, id, _, _, _, _) => id !in s.tickets
    case OpPlace(seat, dept) => InOrg(s, seat.org, dept)
    case _ => true
  }

  ghost function Step(s: State, op: Op): State {
    match op
    case OpCreateDepartment(org, id, name, description, category) =>
      CreateDepartment(s, org, id, TrimSpace(name), TrimSpace(description), category).0
    case OpUpdateDepartment(org, id, name, description, category) =>
      UpdateDepartment(s, org, id, Trimmed(name), Trimmed(description), category).0
    case OpDeleteDepartment(org, id) => DeleteDepartment(s, org, id).0
    case OpCreateTicket(org, id, named, subject, body, scope) =>
      CreateTicket(s, org, id, named, TrimSpace(subject), body, scope).0
    case OpAnalyze(org, id, result) => Analyze(s, org, id, result).0
    case OpUpdateTicket(org, id, patch, scope, now) => UpdateTicket(s, org, id, patch, scope, now).0
    case OpPlace(seat, dept) => s.(staff := s.staff[seat := dept])
  }

  function Trimmed(text: Option<string>): Option<string> { if text.Some? then Some(TrimSpace(text.value)) else None }

  ghost predicate Lawful(s: State, ops: seq<Op>)
    decreases |ops|
  {
    ops != [] ==> Enabled(s, ops[0]) && Lawful(Step(s, ops[0]), ops[1..])
  }

  ghost function Run(s: State, ops: seq<Op>): State
    decreases |ops|
  {
    if ops == [] then s else Run(Step(s, ops[0]), ops[1..])
  }
}

/** The use cases as they run: objects updated in place, each proved to do what Triage says. */
module TriageStore {
  import opened Options
  import opened Text
  import opened Triage
  import opened TriageSafety

  /** The tickets have moved and the department is still there. */
  ghost predicate HalfDeleted(s: State, s': State, org: nat, id: nat) {
    DefaultOf(s, org).Some? && s' == Reassign(s, org, id, DefaultOf(s, org).value)
  }

  /** The analysis is recorded and the ticket has not changed. */
  ghost predicate HalfAnalyzed(s: State, s': State, org: nat, id: nat, result: Option<Prediction>) {
    AnalysisFor(s, org, result).Some? && s' == Append(s, id, AnalysisFor(s, org, result).value)
  }

  class Store {
    const orgs: set<nat>
    const threshold: real
    var depts: map<nat, Department>
    var customers: map<nat, nat>
    var tickets: map<nat, Ticket>
    var analyses: map<nat, seq<Analysis>>
    var staff: map<Seat, nat>

    ghost function Abs(): State
      reads this
    {
      State(orgs, depts, customers, tickets, analyses, staff, threshold)
    }

    /** An organization as it is created, with its default department. */
    constructor (org: nat, id: nat, name: string, customers: map<nat, nat>, configured: real)
      ensures Valid(Abs()) && threshold == (if configured > 0.0 then configured else 0.6) && tickets == map[]
    {
      orgs, threshold := {org}, ReviewThreshold(configured);
      depts := map[id := Department(org, name, "", None, true)];
      this.customers, tickets, analyses, staff := customers, map[], map[], map[];
      new;
      StartIsValid(org, id, name, customers, threshold);
    }

    method GetByName(org: nat, name: string) returns (r: Option<nat>)
      ensures r.Some? ==> InOrg(Abs(), org, r.value) && depts[r.value].name == name
      ensures r.None? <==> !NameTaken(Abs(), org, name, None)
    {
      if d :| d in depts && depts[d].org == org && depts[d].name == name { return Some(d); }
      return None;
    }

    method GetByCategory(org: nat, category: Category) returns (r: Option<nat>)
      ensures r.Some? ==> Handles(Abs(), org, category, r.value)
      ensures r.None? ==> forall d :: !Handles(Abs(), org, category, d)
    {
      if d :| d in depts && depts[d].org == org && depts[d].category == Some(category) { return Some(d); }
      return None;
    }

    method GetDefault(org: nat) returns (r: Option<nat>)
      requires DeptsGood(orgs, depts)
      ensures r == DefaultOf(Abs(), org)
    {
      LookupsAreDetermined(Abs(), org);
      if d :| d in depts && depts[d].org == org && depts[d].isDefault {
        assert IsDefaultOf(Abs(), org, d);
        return Some(d);
      }
      return None;
    }

    method CreateDepartment(org: nat, id: nat, name: string, description: string, category: CategoryField)
        returns (reply: Reply)
      requires id !in depts
      modifies this`depts
      ensures (Abs(), reply) ==
        Triage.CreateDepartment(old(Abs()), org, id, TrimSpace(name), TrimSpace(description), category)
    {
      reply := CreateTrimmed(org, id, TrimSpace(name), TrimSpace(description), category);
    }

    method CreateTrimmed(org: nat, id: nat, name: string, description: string, category: CategoryField)
        returns (reply: Reply)
      requires id !in depts
      modifies this`depts
      ensures (Abs(), reply) == Triage.CreateDepartment(old(Abs()), org, id, name, description, category)
    {
      var existing := GetByName(org, name);
      if existing.Some? { return Failed(AlreadyExists); }
      var department := Department(org, name, description, None, false);
      if category.Named? {
        if category.category.Unknown? { return Failed(Invalid); }
        var taken := GetByCategory(org, category.category.it);
        if taken.Some? {
          assert Handles(Abs(), org, category.category.it, taken.value);
          return Failed(AlreadyExists);
        }
        assert forall d :: d in depts ==> !Handles(Abs(), org, category.category.it, d);
        department := department.(category := Some(category.category.it));
      }
      depts := depts[id := department];
      return Done;
    }

    method UpdateDepartment(org: nat, id: nat, name: Option<string>, description: Option<string>,
        category: CategoryField) returns (reply: Reply)
      requires DeptsGood(orgs, depts)
      modifies this`depts
      ensures (Abs(), reply) ==
        Triage.UpdateDepartment(old(Abs()), org, id, Trimmed(name), Trimmed(description), category)
    {
      reply := UpdateTrimmed(org, id, Trimmed(name), Trimmed(description), category);
    }

    /** A lookup answers another department exactly if another one has the name. */
    lemma NameHeldBy(org: nat, id: nat, name: string, found: Option<nat>)
      requires DeptsGood(orgs, depts) && InOrg(Abs(), org, id)
      requires found.Some? ==> InOrg(Abs(), org, found.value) && depts[found.value].name == name
      requires found.None? <==> !NameTaken(Abs(), org, name, None)
      ensures found.Some? && found.value != id <==> NameTaken(Abs(), org, name, Some(id))
    {
      if NameTaken(Abs(), org, name, Some(id)) {
        var d :| d in depts && depts[d].org == org && depts[d].name == name && d != id;
        assert SameName(depts, d, found.value);
      }
    }

    lemma CategoryHeldBy(org: nat, id: nat, category: Category, found: Option<nat>)
      requires DeptsGood(orgs, depts) && InOrg(Abs(), org, id)
      requires found.Some? ==> Handles(Abs(), org, category, found.value)
      requires found.None? ==> forall d :: !Handles(Abs(), org, category, d)
      ensures found.Some? && found.value != id <==> CategoryTaken(Abs(), org, category, Some(id))
    {
      if CategoryTaken(Abs(), org, category, Some(id)) {
        var d :| d in depts && depts[d].org == org && depts[d].category == Some(category) && d != id;
        assert Handles(Abs(), org, category, d);
        assert SameCategory(depts, d, found.value);
      }
    }

    method UpdateTrimmed(org: nat, id: nat, name: Option<string>, description: Option<string>, category: CategoryField)
        returns (reply: Reply)
      requires DeptsGood(orgs, depts)
      modifies this`depts
      ensures (Abs(), reply) == Triage.UpdateDepartment(old(Abs()), org, id, name, description, category)
    {
      if id !in depts || depts[id].org != org { return Failed(NotFound); }
      var department := depts[id];
      if name.Some? {
        if name.value == "" { return Failed(Invalid); }
        var existing := GetByName(org, name.value);
        NameHeldBy(org, id, name.value, existing);
        if existing.Some? && existing.value != id { return Failed(AlreadyExists); }
        department := department.(name := name.value);
      }
      if description.Some? { department := department.(description := description.value); }
      match category {
        case Absent =>
        case Empty => department := department.(category := None);
        case Named(Unknown) => return Failed(Invalid);
        case Named(Known(c)) =>
          var taken := GetByCategory(org, c);
          CategoryHeldBy(org, id, c, taken);
          if taken.Some? && taken.value != id { return Failed(AlreadyExists); }
          department := department.(category := Some(c));
      }
      depts := depts[id := department];
      return Done;
    }

    /** UPDATE tickets: the moved rows and no others. */
    method ReassignDepartment(org: nat, from: nat, to: nat)
      modifies this`tickets
      ensures Abs() == Reassign(old(Abs()), org, from, to)
    {
      tickets := map t | t in tickets ::
        if tickets[t].org == org && tickets[t].dept == from then tickets[t].(dept := to) else tickets[t];
    }

    /** DELETE FROM departments, with what the foreign keys do. */
    method RemoveDepartment(id: nat) returns (reply: Reply)
      modifies this`depts, this`staff, this`analyses
      ensures (Abs(), reply) == Remove(old(Abs()), id)
    {
      if t :| t in tickets && tickets[t].dept == id { return Failed(Internal); }
      depts := depts - {id};
      staff := map k | k in staff && staff[k] != id :: staff[k];
      analyses := map t | t in analyses :: ForgetAll(analyses[t], id);
      return Done;
    }

    /** Reassign, then delete: two statements, no transaction. `stops` says the second one failed. */
    method DeleteDepartment(org: nat, id: nat, stops: bool) returns (reply: Reply)
      requires DeptsGood(orgs, depts)
      modifies this`depts, this`staff, this`analyses, this`tickets
      ensures !stops ==> (Abs(), reply) == Triage.DeleteDepartment(old(Abs()), org, id)
      ensures stops ==> reply.Failed? && (Abs() == old(Abs()) || HalfDeleted(old(Abs()), Abs(), org, id))
    {
      if id !in depts || depts[id].org != org { return Failed(NotFound); }
      if depts[id].isDefault { return Failed(Conflict); }
      var fallback := GetDefault(org);
      if fallback.None? { return Failed(NotFound); }
      ReassignDepartment(org, id, fallback.value);
      if stops { return Failed(Internal); }
      reply := RemoveDepartment(id);
    }

    method OwnerOf(named: Option<nat>, scope: Scope) returns (owner: Option<nat>, reply: Reply)
      ensures (owner, reply) == OwnerFor(named, scope)
    {
      match scope {
        case CustomerScope(me) =>
          if me.None? { return None, Failed(Forbidden); }
          return me, Done;
        case OrgWide =>
          if named.None? { return None, Failed(Invalid); }
          return named, Done;
      }
    }

    /** Ticket and first message in one transaction: `stops` says the second insert failed. */
    method Insert(id: nat, ticket: Ticket, body: string, stops: bool) returns (reply: Reply)
      modifies this`tickets, this`analyses
      ensures reply == if stops then Failed(Internal) else Done
      ensures tickets == if stops then old(tickets) else old(tickets)[id := ticket.(messages := [body])]
      ensures analyses == if stops then old(analyses) else old(analyses)[id := []]
    {
      var saved := (tickets, analyses);
      tickets, analyses := tickets[id := ticket], analyses[id := []];
      if stops {
        tickets, analyses := saved.0, saved.1;
        return Failed(Internal);
      }
      tickets := tickets[id := tickets[id].(messages := [body])];
      return Done;
    }

    method CreateTicket(org: nat, id: nat, named: Option<nat>, subject: string, body: string, scope: Scope,
        stops: bool) returns (reply: Reply)
      requires DeptsGood(orgs, depts)
      modifies this`tickets, this`analyses
      ensures !stops ==>
        (Abs(), reply) == Triage.CreateTicket(old(Abs()), org, id, named, TrimSpace(subject), body, scope)
      ensures stops ==> reply.Failed? && Abs() == old(Abs())
    {
      reply := CreateTrimmedTicket(org, id, named, TrimSpace(subject), body, scope, stops);
    }

    method CreateTrimmedTicket(org: nat, id: nat, named: Option<nat>, subject: string, body: string, scope: Scope,
        stops: bool) returns (reply: Reply)
      requires DeptsGood(orgs, depts)
      modifies this`tickets, this`analyses
      ensures !stops ==> (Abs(), reply) == Triage.CreateTicket(old(Abs()), org, id, named, subject, body, scope)
      ensures stops ==> reply.Failed? && Abs() == old(Abs())
    {
      var owner;
      owner, reply := OwnerOf(named, scope);
      if reply.Failed? { return; }
      if owner.value !in customers || customers[owner.value] != org { return Failed(NotFound); }
      var department := GetDefault(org);
      if department.None? { return Failed(NotFound); }
      reply := Insert(id, Ticket(org, owner.value, department.value, subject, Open, None, Normal, false, false, []),
        body, stops);
    }

    lemma HandlerFound(org: nat, category: Category, found: Option<nat>)
      requires DeptsGood(orgs, depts)
      requires found.Some? ==> Handles(Abs(), org, category, found.value)
      requires found.None? ==> forall d :: !Handles(Abs(), org, category, d)
      ensures found == HandlerOf(Abs(), org, category)
    {
      LookupsAreDetermined(Abs(), org);
    }

    method Mapped(org: nat, category: Category) returns (dept: Option<nat>, mapped: bool)
      requires DeptsGood(orgs, depts)
      ensures (dept, mapped) == MapCategory(Abs(), org, category)
    {
      dept := GetByCategory(org, category);
      HandlerFound(org, category, dept);
      if dept.Some? { return dept, true; }
      dept := GetDefault(org);
      return dept, false;
    }

    /** The record and then the ticket: `stops` says the ticket update failed after the analysis was stored. */
    method Analyze(org: nat, id: nat, result: Option<Prediction>, stops: bool) returns (reply: Reply)
      requires DeptsGood(orgs, depts) && tickets.Keys == analyses.Keys
      modifies this`tickets, this`analyses
      ensures !stops ==> (Abs(), reply) == Triage.Analyze(old(Abs()), org, id, result)
      ensures stops && reply.Done? ==> Abs() == Triage.Analyze(old(Abs()), org, id, result).0
      ensures stops && reply.Failed? ==> Abs() == old(Abs()) || HalfAnalyzed(old(Abs()), Abs(), org, id, result)
    {
      if id !in tickets || tickets[id].org != org { return Failed(NotFound); }
      var ticket := tickets[id];
      if result.None? { return Failed(Internal); }
      var p := result.value;
      if p.priority.Unknown? { return Failed(Internal); }
      if p.category.Unknown? { return Failed(Internal); }
      var dept, mapped := Mapped(org, p.category.it);
      if dept.None? { return Failed(NotFound); }
      var needsReview := p.priorityConf < threshold || p.categoryConf < threshold || !mapped;
      if !(0.0 <= p.priorityConf <= 1.0 && 0.0 <= p.categoryConf <= 1.0) { return Failed(Internal); }
      analyses := analyses[id := analyses[id] +
        [Analysis(p.priority.it, p.priorityConf, p.category.it, p.categoryConf, dept, needsReview, !mapped)]];
      var changed := false;
      if !ticket.priorityOverridden && ticket.priority != p.priority.it {
        ticket := ticket.(priority := p.priority.it);
        changed := true;
      }
      if !ticket.deptOverridden && ticket.dept != dept.value {
        ticket := ticket.(dept := dept.value);
        changed := true;
      }
      if changed {
        if stops { return Failed(Internal); }
        tickets := tickets[id := ticket];
      }
      assert changed || tickets[id := ticket] == tickets;
      return Done;
    }

    static method SetPriority(ticket: Ticket, priority: Priority, latest: Option<Analysis>) returns (t: Ticket)
      ensures t == WithPriority(ticket, priority, latest)
    {
      t := ticket.(priority := priority);
      if latest.Some? { t := t.(priorityOverridden := latest.value.priority != priority); }
    }

    static method SetDept(ticket: Ticket, d: nat, latest: Option<Analysis>) returns (t: Ticket)
      ensures t == WithDept(ticket, d, latest)
    {
      t := ticket.(dept := d);
      if latest.Some? && latest.value.dept.Some? { t := t.(deptOverridden := latest.value.dept.value != d); }
    }

    static method SetStatus(ticket: Ticket, status: Status, now: int) returns (t: Ticket)
      ensures t == WithStatus(ticket, status, now)
    {
      t := ticket;
      if status == Resolved {
        if t.resolvedAt.None? { t := t.(resolvedAt := Some(now)); }
      } else {
        t := t.(resolvedAt := None);
      }
      t := t.(status := status);
    }

    /** The ticket with the patch applied field by field, or the first field that cannot be. */
    method Corrected(ticket: Ticket, org: nat, p: Patch, latest: Option<Analysis>, now: int)
        returns (t: Ticket, reply: Reply)
      ensures reply == CheckFields(Abs(), org, p)
      ensures reply.Done? ==> t == WithPatch(ticket, p, latest, now)
    {
      t := ticket;
      if p.priority.Some? {
        if p.priority.value.Unknown? { return t, Failed(Invalid); }
        t := SetPriority(t, p.priority.value.it, latest);
      }
      if p.dept.Some? {
        if p.dept.value !in depts || depts[p.dept.value].org != org { return t, Failed(NotFound); }
        t := SetDept(t, p.dept.value, latest);
      }
      if p.status.Some? {
        if p.status.value.Unknown? { return t, Failed(Invalid); }
        t := SetStatus(t, p.status.value.it, now);
      }
      return t, Done;
    }

    method UpdateTicket(org: nat, id: nat, p: Patch, scope: Scope, now: int) returns (reply: Reply)
      modifies this`tickets
      ensures (Abs(), reply) == Triage.UpdateTicket(old(Abs()), org, id, p, scope, now)
    {
      if id !in tickets || tickets[id].org != org || !Allows(scope, tickets[id]) { return Failed(NotFound); }
      reply := CheckCustomerPatch(tickets[id], p, scope);
      if reply.Failed? { return; }
      var latest: Option<Analysis> := None;
      if id in analyses && analyses[id] != [] { latest := Some(analyses[id][|analyses[id]| - 1]); }
      var ticket;
      ticket, reply := Corrected(tickets[id], org, p, latest, now);
      if reply.Done? { tickets := tickets[id := ticket]; }
    }
  }
}

/** What each triage use case leaves in the organization's data and which error it answers with, field by field. */
module TriageMeaning {
  import opened Options
  import opened Triage
  import opened TriageSafety

  /** Another department of the organization is called this. */
  ghost predicate Named(s: State, org: nat, name: string, but: Option<nat>) {
    exists d: nat :: InOrg(s, org, d) && but != Some(d) && s.depts[d].name == name
  }

  ghost predicate Claimed(s: State, org: nat, category: Category, but: Option<nat>) {
    exists d: nat :: InOrg(s, org, d) && but != Some(d) && s.depts[d].category == Some(category)
  }

  lemma NamesAndClaims(s: State, org: nat, but: Option<nat>)
    ensures forall name :: NameTaken(s, org, name, but) <==> Named(s, org, name, but)
    ensures forall c :: CategoryTaken(s, org, c, but) <==> Claimed(s, org, c, but)
  {
    forall name ensures NameTaken(s, org, name, but) <==> Named(s, org, name, but) {
      if NameTaken(s, org, name, but) {
        var d :| d in s.depts && s.depts[d].org == org && s.depts[d].name == name && but != Some(d);
        assert InOrg(s, org, d);
      }
    }
    forall c ensures CategoryTaken(s, org, c, but) <==> Claimed(s, org, c, but) {
      if CategoryTaken(s, org, c, but) {
        var d :| d in s.depts && s.depts[d].org == org && s.depts[d].category == Some(c) && but != Some(d);
        assert InOrg(s, org, d);
      }
    }
  }

  /** Only this department is new or different. */
  ghost predicate OneDepartment(s: State, s': State, id: nat, d: Department) {
    && s' == s.(depts := s'.depts) && s'.depts.Keys == s.depts.Keys + {id} && s'.depts[id] == d
    && forall e :: e in s.depts && e != id ==> s'.depts[e] == s.depts[e]
  }

  /** A department is created exactly if its name is free and the category it asks for, if any, is a known one that
      nobody claims; it then has what was asked for and is not the default one. */
  lemma CreatedDepartment(s: State, org: nat, id: nat, name: string, description: string, category: CategoryField)
    requires id !in s.depts
    ensures var (s', reply) := CreateDepartment(s, org, id, name, description, category);
      var wanted := if category.Named? && category.category.Known? then Some(category.category.it) else None;
      var claimed := wanted.Some? && Claimed(s, org, wanted.value, None);
      && (reply == Done <==>
            !Named(s, org, name, None) && category != CategoryField.Named(Unknown) && !claimed)
      && (reply == Failed(AlreadyExists) <==> Named(s, org, name, None) || claimed)
      && (reply == Failed(Invalid) <==> !Named(s, org, name, None) && category == CategoryField.Named(Unknown))
      && (reply.Failed? ==> s' == s)
      && (reply.Done? ==> OneDepartment(s, s', id, Department(org, name, description, wanted, false)))
  {
    NamesAndClaims(s, org, None);
  }

  /** What an edit asks of the category: nothing, to clear it, or to claim one. */
  function CategoryAfter(was: Option<Category>, category: CategoryField): Option<Category>
    requires category != CategoryField.Named(Unknown)
  {
    match category
    case Absent => was
    case Empty => None
    case Named(c) => Some(c.it)
  }

  /** An edit succeeds exactly for a department of the organization, a name that is neither empty nor another's, and a
      category that is known and not another's; what it does not mention stays. */
  lemma EditedDepartment(s: State, org: nat, id: nat, name: Option<string>, description: Option<string>,
      category: CategoryField)
    ensures var (s', reply) := UpdateDepartment(s, org, id, name, description, category);
      var nameTaken := name.Some? && Named(s, org, name.value, Some(id));
      var claims := category.Named? && category.category.Known?;
      var claimed := claims && Claimed(s, org, category.category.it, Some(id));
      && (reply == Failed(NotFound) <==> !InOrg(s, org, id))
      && (reply == Done <==>
            InOrg(s, org, id) && name != Some("") && !nameTaken && category != CategoryField.Named(Unknown) && !claimed)
      && (reply == Failed(AlreadyExists) <==> InOrg(s, org, id) && name != Some("") && (nameTaken || claimed))
      && (reply.Failed? ==> s' == s && (reply.error in {NotFound, AlreadyExists} || reply.error == Invalid))
      && (reply.Done? ==>
            && id in s.depts && category != CategoryField.Named(Unknown)
            && var d := s.depts[id];
            OneDepartment(s, s', id, Department(org, if name.Some? then name.value else d.name,
              if description.Some? then description.value else d.description, CategoryAfter(d.category, category),
              d.isDefault)))
  {
    NamesAndClaims(s, org, Some(id));
  }

  /** The default department stays, and what is not there cannot go. */
  lemma RefusedDeletions(s: State, org: nat, id: nat)
    requires Consistent(false, s)
    ensures var (s', reply) := DeleteDepartment(s, org, id);
      && (reply == Failed(NotFound) <==> !InOrg(s, org, id))
      && (reply == Failed(Conflict) <==> IsDefaultOf(s, org, id))
      && (reply.Failed? ==> s' == s && (reply.error == NotFound || reply.error == Conflict))
  {
    DeleteDepartmentKeeps(false, s, org, id);
    LookupsAreDetermined(s, org);
  }

  /** Whose ticket it is: a customer's own, or for staff the one they name. */
  function AskedFor(named: Option<nat>, scope: Scope): Option<nat> { if scope.OrgWide? then named else scope.owner }

  /** A ticket is filed exactly for a customer of the organization. It starts open, in the default department, at normal
      priority, with no analysis and nothing marked as corrected, and its body is its first message. */
  lemma FiledTicket(s: State, org: nat, id: nat, named: Option<nat>, subject: string, body: string, scope: Scope)
    requires DeptsGood(s.orgs, s.depts) && id !in s.tickets
    ensures var (s', reply) := CreateTicket(s, org, id, named, subject, body, scope);
      var owner := AskedFor(named, scope);
      && (reply == Done <==>
            owner.Some? && owner.value in s.customers && s.customers[owner.value] == org && org in s.orgs)
      && (owner.None? <==> reply in {Failed(Forbidden), Failed(Invalid)})
      && (owner.None? ==> (reply == Failed(Forbidden) <==> scope.CustomerScope?))
      && (reply.Failed? ==> s' == s && (owner.Some? ==> reply == Failed(NotFound)))
      && (reply.Done? ==>
        && s' == s.(tickets := s'.tickets, analyses := s'.analyses)
        && s'.tickets.Keys == s.tickets.Keys + {id} && AnalysesOf(s', id) == []
        && (forall t :: t in s.tickets ==> s'.tickets[t] == s.tickets[t] && AnalysesOf(s', t) == AnalysesOf(s, t))
        && var t := s'.tickets[id];
        && t.org == org && owner == Some(t.customer) && IsDefaultOf(s, org, t.dept) && t.subject == subject
        && t.messages == [body] && t.status == Open && t.resolvedAt == None && t.priority == Normal
        && !t.priorityOverridden && !t.deptOverridden)
  {
    LookupsAreDetermined(s, org);
  }

  /** The flag of a field a human chose: whether the newest analysis predicted something else; without such a prediction
      it stays. */
  predicate FlagAfter<T(==)>(was: bool, predicted: Option<T>, chosen: T, now: bool) {
    now == if predicted.Some? then predicted.value != chosen else was
  }

  /** What a patch leaves of a ticket, field by field. */
  ghost predicate PatchedTicket(t: Ticket, t': Ticket, p: Patch, latest: Option<Analysis>, now: int)
    requires p.priority != Some(Unknown) && p.status != Some(Unknown)
  {
    && t' == t.(priority := t'.priority, priorityOverridden := t'.priorityOverridden, dept := t'.dept,
         deptOverridden := t'.deptOverridden, status := t'.status, resolvedAt := t'.resolvedAt)
    && (if p.priority.Some? then
          && t'.priority == p.priority.value.it
          && FlagAfter(t.priorityOverridden, if latest.Some? then Some(latest.value.priority) else None, t'.priority,
               t'.priorityOverridden)
        else t'.priority == t.priority && t'.priorityOverridden == t.priorityOverridden)
    && (if p.dept.Some? then
          && t'.dept == p.dept.value
          && FlagAfter(t.deptOverridden, if latest.Some? then latest.value.dept else None, t'.dept, t'.deptOverridden)
        else t'.dept == t.dept && t'.deptOverridden == t.deptOverridden)
    && (if p.status.Some? then
          && t'.status == p.status.value.it
          && (t'.status != Resolved ==> t'.resolvedAt == None)
          && (t'.status == Resolved && t.resolvedAt.Some? ==> t'.resolvedAt == t.resolvedAt)
          && (t'.status == Resolved && t.resolvedAt.None? ==> t'.resolvedAt == Some(now))
        else t'.status == t.status && t'.resolvedAt == t.resolvedAt)
  }

  /** Staff may set each of the three fields to anything known, a department only to one of the organization; what the
      patch does not mention stays, and so does everything else. */
  lemma CorrectedByStaff(s: State, org: nat, id: nat, p: Patch, now: int)
    ensures var (s', reply) := UpdateTicket(s, org, id, p, OrgWide, now);
      var theirs := id in s.tickets && s.tickets[id].org == org;
      && (reply == Done <==>
            && theirs && p.priority != Some(Unknown) && p.status != Some(Unknown)
            && (p.dept.Some? ==> InOrg(s, org, p.dept.value)))
      && (reply == Failed(NotFound) <==>
            || !theirs
            || (p.priority != Some(Unknown) && p.dept.Some? && !InOrg(s, org, p.dept.value)))
      && (reply.Failed? ==> s' == s && (reply.error == NotFound || reply.error == Invalid))
      && (reply.Done? ==>
        && p.priority != Some(Unknown) && p.status != Some(Unknown) && id in s.tickets && id in s'.tickets
        && s' == s.(tickets := s.tickets[id := s'.tickets[id]])
        && PatchedTicket(s.tickets[id], s'.tickets[id], p, Latest(s, id), now))
  {
  }

  /** What stops a customer: a ticket that is not theirs answers as missing; anything but reopening is forbidden; what
      is not resolved cannot be reopened. */
  lemma CorrectedByCustomer(s: State, org: nat, id: nat, p: Patch, owner: Option<nat>, now: int)
    ensures var reply := UpdateTicket(s, org, id, p, CustomerScope(owner), now).1;
      var theirs := id in s.tickets && s.tickets[id].org == org && owner == Some(s.tickets[id].customer);
      var reopening := p == Patch(None, None, Some(Known(Open)));
      var resolved := theirs && s.tickets[id].status in {Resolved, Closed};
      && (reply == Failed(NotFound) <==> !theirs)
      && (reply == Failed(Forbidden) <==> theirs && !reopening)
      && (reply == Failed(Conflict) <==> theirs && reopening && !resolved)
      && (reply == Done <==> theirs && reopening && resolved)
  {
  }
}

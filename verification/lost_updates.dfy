/** Runs of overlapping use cases in which something is lost. */
module LostUpdates {
  import opened Options
  import opened Runs
  import opened Triage
  import opened TriageSafety
  import opened TriageRace
  import opened LateWrites

  // ----------------------------------------------- a correction overtaken

  /** Whether an analysis that begins now would lose a priority p set to the ticket while it is under way, although that
      is flagged as a correction when it is made. */
  ghost predicate WillOvertake(s: State, org: nat, id: nat, p: Priority, result: Option<Prediction>) {
    && TicketIn(s, org, id) && !s.tickets[id].priorityOverridden
    && Latest(s, id).Some? && Latest(s, id).value.priority != p && AnalysisFor(s, org, result).Some?
    && AnalysisFor(s, org, result).value.priority != s.tickets[id].priority
  }

  function Correction(org: nat, id: nat, p: Priority, now: int): Step {
    Plain(OpUpdateTicket(org, id, NO_PATCH.(priority := Some(Known(p))), OrgWide, now))
  }

  lemma CorrectionGoes(s: State, org: nat, id: nat, p: Priority, now: int, f: Flight)
    requires TicketIn(s, org, id)
    ensures Goes(Allowed, Next, World(s, [f]), Correction(org, id, p, now),
                 World(s.(tickets := s.tickets[id := WithPriority(s.tickets[id], p, Latest(s, id))]), [f]))
  {
    PriorityPatch(s, org, id, p, now);
  }

  lemma AnalysisBegins(s: State, org: nat, id: nat)
    requires TicketIn(s, org, id)
    ensures Goes(Allowed, Next, World(s, []), BeginAnalysis(org, id), World(s, [Reading(org, id, s.tickets[id])]))
  {
  }

  lemma AnalysisGoes(s: State, org: nat, id: nat, was: Ticket, result: Option<Prediction>)
    requires TicketIn(s, org, id) && AnalysisFor(s, org, result).Some? && AnalysisFor(s, org, result).value.dept.Some?
    ensures var a := AnalysisFor(s, org, result).value;
      && Goes(Allowed, Next, World(s, [Reading(org, id, was)]), Record(0, result),
                   World(Append(s, id, a), [Recorded(org, id, was, a)]))
      && Goes(Allowed, Next, World(Append(s, id, a), [Recorded(org, id, was, a)]), WriteBack(0),
                   World(Written(Append(s, id, a), id, was, a), [Ended]))
  {
  }

  lemma CorrectionOvertaken(s: State, org: nat, id: nat, p: Priority, result: Option<Prediction>)
    requires Consistent(false, s) && WillOvertake(s, org, id, p, result)
    ensures var s1 := s.(tickets := s.tickets[id := WithPriority(s.tickets[id], p, Latest(s, id))]);
      AnalysisFor(s1, org, result) == AnalysisFor(s, org, result)
    ensures var a := AnalysisFor(s, org, result).value;
      a.dept.Some? && InOrg(s, org, a.dept.value) && s.tickets[id].dept in s.depts
  {
    var s1 := s.(tickets := s.tickets[id := WithPriority(s.tickets[id], p, Latest(s, id))]);
    SameDeptsSameAnalysis(s, s1, org, result);
    AnalysisForMeans(s, org, result);
    assert TicketGood(false, s.depts, s.customers, s.tickets[id], AnalysesOf(s, id));
  }

  lemma WrittenOver(s: State, org: nat, id: nat, p: Priority, result: Option<Prediction>)
    requires Consistent(false, s) && WillOvertake(s, org, id, p, result)
    ensures var (was, a) := (s.tickets[id], AnalysisFor(s, org, result).value);
      var s1 := s.(tickets := s.tickets[id := WithPriority(was, p, Latest(s, id))]);
      && s1.tickets[id].priority == p && s1.tickets[id].priorityOverridden && a.dept.Some?
      && var s2 := Written(Append(s1, id, a), id, was, a);
         id in s2.tickets && s2.tickets[id].priority == a.priority && !s2.tickets[id].priorityOverridden
  {
    var was, a := s.tickets[id], AnalysisFor(s, org, result).value;
    CorrectionOvertaken(s, org, id, p, result);
    WrittenRow(Append(s.(tickets := s.tickets[id := WithPriority(was, p, Latest(s, id))]), id, a), id, was, a);
  }

  function Overtaken(org: nat, id: nat, p: Priority, now: int, result: Option<Prediction>): seq<Step> {
    [BeginAnalysis(org, id), Correction(org, id, p, now), Record(0, result), WriteBack(0)]
  }

  lemma RunOvertaken(s: State, org: nat, id: nat, p: Priority, now: int, result: Option<Prediction>)
    requires Consistent(false, s) && WillOvertake(s, org, id, p, result)
    ensures var (w, steps) := (World(s, []), Overtaken(org, id, p, now, result));
      var (was, a) := (s.tickets[id], AnalysisFor(s, org, result).value);
      var s1 := s.(tickets := s.tickets[id := WithPriority(was, p, Latest(s, id))]);
      && AllAllowed(w, steps) && AfterAll(w, steps[..2]).s == s1 && a.dept.Some?
      && AfterAll(w, steps).s == Written(Append(s1, id, a), id, was, a)
  {
    var steps, was, a := Overtaken(org, id, p, now, result), s.tickets[id], AnalysisFor(s, org, result).value;
    var s1 := s.(tickets := s.tickets[id := WithPriority(was, p, Latest(s, id))]);
    CorrectionOvertaken(s, org, id, p, result);
    AnalysisBegins(s, org, id);
    CorrectionGoes(s, org, id, p, now, Reading(org, id, was));
    AnalysisGoes(s1, org, id, was, result);
    AlongFour(Allowed, Next, steps, World(s, []), World(s, [Reading(org, id, was)]), World(s1, [Reading(org, id, was)]),
              World(Append(s1, id, a), [Recorded(org, id, was, a)]),
                World(Written(Append(s1, id, a), id, was, a), [Ended]));
  }

  /** The loss happens: the correction is made and flagged, and at the end neither it nor its flag is left. */
  lemma OvertakenCorrectionIsLost(s: State, org: nat, id: nat, p: Priority, now: int, result: Option<Prediction>)
    requires Consistent(false, s) && WillOvertake(s, org, id, p, result)
    ensures var (w, steps) := (World(s, []), Overtaken(org, id, p, now, result));
      var s1, s2 := AfterAll(w, steps[..2]).s, AfterAll(w, steps).s;
      && AllAllowed(w, steps)
      && id in s1.tickets && s1.tickets[id].priority == p && s1.tickets[id].priorityOverridden
      && id in s2.tickets && s2.tickets[id].priority == AnalysisFor(s, org, result).value.priority
      && !s2.tickets[id].priorityOverridden
  {
    RunOvertaken(s, org, id, p, now, result);
    WrittenOver(s, org, id, p, result);
  }

  // ---------------------------------------------- an analysis taken off again

  /** Whether a correction of this ticket that begins now takes off the priority an analysis puts meanwhile. */
  ghost predicate WillTakeOff(s: State, org: nat, id: nat, p: Patch, scope: Scope, result: Option<Prediction>) {
    && TicketIn(s, org, id) && Allows(scope, s.tickets[id]) && CheckCustomerPatch(s.tickets[id], p, scope).Done?
    && CheckFields(s, org, p).Done? && p.priority.None? && !s.tickets[id].priorityOverridden
    && AnalysisFor(s, org, result).Some? && AnalysisFor(s, org, result).value.priority != s.tickets[id].priority
  }

  function TakenOff(org: nat, id: nat, p: Patch, scope: Scope, now: int, result: Option<Prediction>): seq<Step> {
    [BeginPatch(org, id, p, scope, now)] + Passing(org, id, result) + [Compare(0), WritePatch(0)]
  }

  function Passing(org: nat, id: nat, result: Option<Prediction>): seq<Step> {
    [BeginAnalysis(org, id), Record(1, result), WriteBack(1)]
  }

  lemma BeginBehind(s: State, f: Flight, org: nat, id: nat)
    requires TicketIn(s, org, id)
    ensures Goes(Allowed, Next, World(s, [f]), BeginAnalysis(org, id), World(s, [f, Reading(org, id, s.tickets[id])]))
  {
  }

  lemma RecordBehind(s: State, f: Flight, org: nat, id: nat, was: Ticket, result: Option<Prediction>)
    requires TicketIn(s, org, id) && AnalysisFor(s, org, result).Some?
    ensures var a := AnalysisFor(s, org, result).value;
      Goes(Allowed, Next, World(s, [f, Reading(org, id, was)]), Record(1, result),
           World(Append(s, id, a), [f, Recorded(org, id, was, a)]))
  {
  }

  lemma WriteBehind(s: State, f: Flight, org: nat, id: nat, was: Ticket, a: Analysis)
    requires a.dept.Some?
    ensures Goes(Allowed, Next, World(s, [f, Recorded(org, id, was, a)]), WriteBack(1),
                 World(Written(s, id, was, a), [f, Ended]))
  {
  }

  lemma PatchBegins(s: State, org: nat, id: nat, p: Patch, scope: Scope, now: int)
    requires TicketIn(s, org, id) && Allows(scope, s.tickets[id]) && CheckCustomerPatch(s.tickets[id], p, scope).Done?
    ensures Goes(Allowed, Next, World(s, []), BeginPatch(org, id, p, scope, now),
                 World(s, [Patching(org, id, s.tickets[id], p, now)]))
  {
  }

  lemma CompareFirst(s: State, org: nat, id: nat, was: Ticket, p: Patch, now: int)
    requires CheckFields(s, org, p).Done?
    ensures Goes(Allowed, Next, World(s, [Patching(org, id, was, p, now), Ended]), Compare(0),
                 World(s, [Checked(org, id, WithPatch(was, p, Latest(s, id), now)), Ended]))
  {
  }

  lemma WriteFirst(s: State, org: nat, id: nat, row: Ticket)
    ensures Goes(Allowed, Next, World(s, [Checked(org, id, row), Ended]), WritePatch(0),
                 World(Put(s, id, row), [Ended, Ended]))
  {
  }

  /** The tables after the analysis and the row the correction then writes. */
  lemma RowTakenOff(s: State, org: nat, id: nat, p: Patch, scope: Scope, now: int, result: Option<Prediction>)
    requires Consistent(false, s) && WillTakeOff(s, org, id, p, scope, result)
    ensures var (was, a) := (s.tickets[id], AnalysisFor(s, org, result).value);
      && a.dept.Some?
      && var s1 := Written(Append(s, id, a), id, was, a);
         && s1.depts == s.depts && id in s1.tickets && Latest(s1, id) == Some(a) && CheckFields(s1, org, p).Done?
         && var row := WithPatch(was, p, Some(a), now);
            row.dept in s1.depts && row.priority == was.priority && !row.priorityOverridden
  {
    AnalysisForMeans(s, org, result);
    assert TicketGood(false, s.depts, s.customers, s.tickets[id], AnalysesOf(s, id));
  }

  lemma AnalysisPasses(s: State, f: Flight, org: nat, id: nat, result: Option<Prediction>)
    requires TicketIn(s, org, id) && AnalysisFor(s, org, result).Some? && AnalysisFor(s, org, result).value.dept.Some?
    ensures var (was, a) := (s.tickets[id], AnalysisFor(s, org, result).value);
      && AllAllowed(World(s, [f]), Passing(org, id, result))
      && AfterAll(World(s, [f]), Passing(org, id, result)) == World(Written(Append(s, id, a), id, was, a), [f, Ended])
  {
    var was, a := s.tickets[id], AnalysisFor(s, org, result).value;
    BeginBehind(s, f, org, id);
    RecordBehind(s, f, org, id, was, result);
    WriteBehind(Append(s, id, a), f, org, id, was, a);
    AlongThree(Allowed, Next, Passing(org, id, result), World(s, [f]), World(s, [f, Reading(org, id, was)]),
               World(Append(s, id, a), [f, Recorded(org, id, was, a)]),
               World(Written(Append(s, id, a), id, was, a), [f, Ended]));
  }

  lemma PatchReads(s: State, org: nat, id: nat, p: Patch, scope: Scope, now: int)
    requires TicketIn(s, org, id) && Allows(scope, s.tickets[id]) && CheckCustomerPatch(s.tickets[id], p, scope).Done?
    ensures AllAllowed(World(s, []), [BeginPatch(org, id, p, scope, now)])
    ensures AfterAll(World(s, []), [BeginPatch(org, id, p, scope, now)]) ==
      World(s, [Patching(org, id, s.tickets[id], p, now)])
  {
    PatchBegins(s, org, id, p, scope, now);
    RunsAlong(Allowed, Next, [World(s, []), World(s, [Patching(org, id, s.tickets[id], p, now)])],
              [BeginPatch(org, id, p, scope, now)]);
  }

  /** The correction goes on, on tables that show this newest analysis. */
  lemma PatchGoesOn(s: State, org: nat, id: nat, was: Ticket, p: Patch, now: int, newest: Analysis)
    requires CheckFields(s, org, p).Done? && Latest(s, id) == Some(newest)
    ensures var w := World(s, [Patching(org, id, was, p, now), Ended]);
      && AllAllowed(w, [Compare(0), WritePatch(0)])
      && AfterAll(w, [Compare(0), WritePatch(0)]) ==
           World(Put(s, id, WithPatch(was, p, Some(newest), now)), [Ended, Ended])
  {
    var row := WithPatch(was, p, Some(newest), now);
    CompareFirst(s, org, id, was, p, now);
    WriteFirst(s, org, id, row);
    AlongTwo(Allowed, Next, [Compare(0), WritePatch(0)], World(s, [Patching(org, id, was, p, now), Ended]),
             World(s, [Checked(org, id, row), Ended]), World(Put(s, id, row), [Ended, Ended]));
  }

  lemma RunTakenOff(s: State, org: nat, id: nat, p: Patch, scope: Scope, now: int, result: Option<Prediction>)
    requires Consistent(false, s) && WillTakeOff(s, org, id, p, scope, result)
    ensures var (was, a, w) := (s.tickets[id], AnalysisFor(s, org, result).value, World(s, []));
      && p.status != Some(Unknown) && a.dept.Some? && AllAllowed(w, TakenOff(org, id, p, scope, now, result))
      && AfterAll(w, TakenOff(org, id, p, scope, now, result)).s ==
           Put(Written(Append(s, id, a), id, was, a), id, WithPatch(was, p, Some(a), now))
  {
    var was, a := s.tickets[id], AnalysisFor(s, org, result).value;
    RowTakenOff(s, org, id, p, scope, now, result);
    PatchReads(s, org, id, p, scope, now);
    AnalysisPasses(s, Patching(org, id, was, p, now), org, id, result);
    PatchGoesOn(Written(Append(s, id, a), id, was, a), org, id, was, p, now, a);
    InThreeParts(Allowed, Next, [BeginPatch(org, id, p, scope, now)], Passing(org, id, result),
                 [Compare(0), WritePatch(0)], World(s, []));
  }

  lemma InThreeParts(enabled: (World, Step) -> bool, step: (World, Step) -> World, a: seq<Step>, b: seq<Step>,
      c: seq<Step>, w: World)
    requires LawfulBy(enabled, step, w, a) && LawfulBy(enabled, step, RunBy(step, w, a), b)
    requires LawfulBy(enabled, step, RunBy(step, RunBy(step, w, a), b), c)
    ensures LawfulBy(enabled, step, w, a + b + c)
    ensures RunBy(step, w, a + b + c) == RunBy(step, RunBy(step, RunBy(step, w, a), b), c)
  {
    InTwoParts(enabled, step, a, b, w, RunBy(step, w, a), RunBy(step, RunBy(step, w, a), b));
    InTwoParts(enabled, step, a + b, c, w, RunBy(step, w, a + b), RunBy(step, RunBy(step, w, a + b), c));
  }

  /** The loss happens: a correction that leaves the priority alone, of its status say, reads the ticket, the analysis
      comes and goes, and at the end the unflagged priority is not the newest prediction. */
  lemma AnalysisIsTakenOff(s: State, org: nat, id: nat, p: Patch, scope: Scope, now: int, result: Option<Prediction>)
    requires Consistent(false, s) && WillTakeOff(s, org, id, p, scope, result)
    ensures AllAllowed(World(s, []), TakenOff(org, id, p, scope, now, result))
    ensures var end := AfterAll(World(s, []), TakenOff(org, id, p, scope, now, result)).s;
      && id in end.tickets && !end.tickets[id].priorityOverridden && Latest(end, id).Some?
      && end.tickets[id].priority == s.tickets[id].priority != Latest(end, id).value.priority
  {
    var was, a := s.tickets[id], AnalysisFor(s, org, result).value;
    RunTakenOff(s, org, id, p, scope, now, result);
    RowTakenOff(s, org, id, p, scope, now, result);
    PutTracks(Written(Append(s, id, a), id, was, a), id, WithPatch(was, p, Some(a), now));
  }

  // ------------------------------------------------ a deletion left half done

  function MoveIn(org: nat, id: nat, d: nat, now: int): Step {
    Plain(OpUpdateTicket(org, id, NO_PATCH.(dept := Some(d)), OrgWide, now))
  }

  function HalfDeleted(org: nat, d: nat, id: nat, now: int): seq<Step> {
    [BeginDelete(org, d), MoveTickets(0), MoveIn(org, id, d, now), DropDepartment(0)]
  }

  lemma DeletionGoes(s: State, org: nat, d: nat)
    requires StepEnabled(World(s, []), BeginDelete(org, d))
    ensures var to := DefaultOf(s, org).value;
      && Goes(Allowed, Next, World(s, []), BeginDelete(org, d), World(s, [Deleting(org, d, to)]))
      && Goes(Allowed, Next, World(s, [Deleting(org, d, to)]), MoveTickets(0),
              World(Reassign(s, org, d, to), [Emptied(org, d)]))
  {
  }

  lemma MoveInGoes(s: State, org: nat, id: nat, d: nat, now: int, f: Flight)
    requires TicketIn(s, org, id) && InOrg(s, org, d)
    ensures Goes(Allowed, Next, World(s, [f]), MoveIn(org, id, d, now),
                 World(s.(tickets := s.tickets[id := WithDept(s.tickets[id], d, Latest(s, id))]), [f]))
  {
    DeptPatch(s, org, id, d, now);
  }

  lemma DropGoes(s: State, org: nat, d: nat)
    requires InOrg(s, org, d) && exists t: nat :: Houses(s, d, t)
    ensures Goes(Allowed, Next, World(s, [Emptied(org, d)]), DropDepartment(0), World(s, [Ended]))
  {
    var t: nat :| Houses(s, d, t);
  }

  /** It happens: a ticket moved into the department between the two statements makes the second one fail; the tickets
      the first one moved stay where they went. */
  lemma MoveInKeepsDepartment(s: State, org: nat, d: nat, id: nat, now: int)
    requires InOrg(s, org, d) && !s.depts[d].isDefault && DefaultOf(s, org).Some? && TicketIn(s, org, id)
    ensures AllAllowed(World(s, []), HalfDeleted(org, d, id, now))
    ensures var end := AfterAll(World(s, []), HalfDeleted(org, d, id, now)).s;
      && d in end.depts && end.tickets.Keys == s.tickets.Keys
      && forall t: nat :: Houses(end, d, t) <==> t == id || (Houses(s, d, t) && s.tickets[t].org != org)
  {
    var s1 := Reassign(s, org, d, DefaultOf(s, org).value);
    var s2 := s1.(tickets := s1.tickets[id := WithDept(s1.tickets[id], d, Latest(s1, id))]);
    DeletionGoes(s, org, d);
    MoveInGoes(s1, org, id, d, now, Emptied(org, d));
    assert Houses(s2, d, id);
    DropGoes(s2, org, d);
    AlongFour(Allowed, Next, HalfDeleted(org, d, id, now), World(s, []),
              World(s, [Deleting(org, d, DefaultOf(s, org).value)]), World(s1, [Emptied(org, d)]),
              World(s2, [Emptied(org, d)]), World(s2, [Ended]));
  }

  // ---------------------------------------------------------- an edit undone

  function EditedTwice(org: nat, d: nat, text: string): seq<Step> {
    [BeginEdit(org, d, None, Some(text), Absent), Plain(OpUpdateDepartment(org, d, None, None, Empty)), Approve(0),
     WriteEdit(0)]
  }

  lemma EditGoes(s: State, s1: State, org: nat, d: nat, text: string)
    requires InOrg(s, org, d)
    ensures var f := Editing(org, d, s.depts[d], None, Some(text), Absent);
      && Goes(Allowed, Next, World(s, []), BeginEdit(org, d, None, Some(text), Absent), World(s, [f]))
      && Goes(Allowed, Next, World(s1, [f]), Approve(0),
              World(s1, [Approved(org, d, s.depts[d].(description := text))]))
  {
  }

  lemma WriteEditGoes(s: State, org: nat, d: nat, row: Department)
    ensures Goes(Allowed, Next, World(s, [Approved(org, d, row)]), WriteEdit(0),
                 World(PutDepartment(s, org, d, row), [Ended]))
  {
  }

  lemma ClearGoes(s: State, org: nat, d: nat, f: Flight)
    requires InOrg(s, org, d)
    ensures Goes(Allowed, Next, World(s, [f]), Plain(OpUpdateDepartment(org, d, None, None, Empty)),
                 World(s.(depts := s.depts[d := s.depts[d].(category := None)]), [f]))
  {
  }

  lemma ClearedIsFree(s: State, org: nat, d: nat, text: string)
    requires DeptsGood(s.orgs, s.depts) && InOrg(s, org, d)
    ensures Unclaimed(s.(depts := s.depts[d := s.depts[d].(category := None)]), org, d,
      s.depts[d].(description := text))
  {
    forall e | e in s.depts && e != d && s.depts[e].org == org
      ensures s.depts[e].name != s.depts[d].name
      ensures s.depts[d].category.Some? ==> s.depts[e].category != s.depts[d].category
    {
      assert !SameName(s.depts, e, d) && !SameCategory(s.depts, e, d);
    }
  }

  /** It happens: a category cleared while somebody edits the description is back afterwards. */
  lemma ClearedCategoryComesBack(s: State, org: nat, d: nat, text: string)
    requires Consistent(false, s) && InOrg(s, org, d)
    ensures AllAllowed(World(s, []), EditedTwice(org, d, text))
    ensures var s1, end := AfterAll(World(s, []), EditedTwice(org, d, text)[..2]).s,
                           AfterAll(World(s, []), EditedTwice(org, d, text)).s;
      && d in s1.depts && s1.depts[d].category == None
      && d in end.depts && end.depts[d].category == s.depts[d].category
  {
    var s1, row := s.(depts := s.depts[d := s.depts[d].(category := None)]), s.depts[d].(description := text);
    var f := Editing(org, d, s.depts[d], None, Some(text), Absent);
    EditGoes(s, s1, org, d, text);
    ClearGoes(s, org, d, f);
    WriteEditGoes(s1, org, d, row);
    ClearedIsFree(s, org, d, text);
    AlongFour(Allowed, Next, EditedTwice(org, d, text), World(s, []), World(s, [f]), World(s1, [f]),
              World(s1, [Approved(org, d, row)]), World(PutDepartment(s1, org, d, row), [Ended]));
  }

  // ------------------------------------------------------------ such a state

  const RAISED := Some(Prediction(Known(High), 0.9, Known(Billing), 0.9))

  /** One valid state that meets every condition above: an analysis of ticket 7 overtakes a correction to urgent, and is
      taken off by one of the status; department 1 can be left half deleted. */
  lemma ItHappens()
    ensures Valid(ROUTED) && WillOvertake(ROUTED, 5, 7, Urgent, RAISED)
    ensures WillTakeOff(ROUTED, 5, 7, NO_PATCH.(status := Some(Known(InProgress))), OrgWide, RAISED)
    ensures InOrg(ROUTED, 5, 1) && !ROUTED.depts[1].isDefault && DefaultOf(ROUTED, 5).Some? && TicketIn(ROUTED, 5, 7)
    ensures ROUTED.depts[1].category.Some?
  {
    RoutedIsValid();
    AnalysisForMeans(ROUTED, 5, RAISED);
    LookupsAreDetermined(ROUTED, 5);
    assert AnalysesOf(ROUTED, 7) == [Analysis(Normal, 0.9, Billing, 0.9, Some(1), false, false)];
  }
}

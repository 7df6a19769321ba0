/** What overlapping use cases lose: writes that come late, over whole runs. */
module LateWrites {
  import opened Options
  import opened Runs
  import opened Triage
  import opened TriageSafety
  import opened TriageRace

  // ------------------------------------------------------------- a late write

  predicate Touches(step: Step, i: nat) { !step.Plain? && !Starts(step) && step.i == i }

  /** None of these steps belongs to use case i. */
  predicate Others(steps: seq<Step>, i: nat) { forall k :: 0 <= k < |steps| ==> !Touches(steps[k], i) }

  lemma {:induction false} OthersLeave(w: World, steps: seq<Step>, i: nat)
    requires i < |w.flights| && Others(steps, i)
    ensures i < |AfterAll(w, steps).flights| && AfterAll(w, steps).flights[i] == w.flights[i]
    decreases |steps|
  {
    if steps != [] {
      var w' := Next(w, steps[0]);
      assert !Touches(steps[0], i);
      assert i < |w'.flights| && w'.flights[i] == w.flights[i];
      assert Others(steps[1..], i) by {
        forall k | 0 <= k < |steps[1..]| ensures !Touches(steps[1..][k], i) { assert steps[1..][k] == steps[k + 1]; }
      }
      OthersLeave(w', steps[1..], i);
    }
  }

  /** Any steps, then one more. */
  lemma OneMore(w: World, steps: seq<Step>, last: Step)
    requires AllAllowed(w, steps + [last])
    ensures AllAllowed(w, steps) && Allowed(AfterAll(w, steps), last)
    ensures AfterAll(w, steps + [last]) == Next(AfterAll(w, steps), last)
  {
    var all := steps + [last];
    assert all[..|all| - 1] == steps && all[|all| - 1] == last;
    RunByOneMore(Next, w, all);
    LawfulByOneMore(Allowed, Next, w, all);
  }

  /** A use case that started, and then only the others went on. */
  lemma Waits(w: World, steps: seq<Step>, i: nat, more: seq<Step>)
    requires WorldGood(w) && AllAllowed(w, steps + more) && i < |AfterAll(w, steps).flights| && Others(more, i)
    ensures AllAllowed(w, steps) && WorldGood(AfterAll(w, steps)) && WorldGood(AfterAll(w, steps + more))
    ensures i < |AfterAll(w, steps + more).flights|
    ensures AfterAll(w, steps + more).flights[i] == AfterAll(w, steps).flights[i]
  {
    RunByJoin(Next, w, steps, more);
    LawfulByJoin(Allowed, Next, w, steps, more);
    OverlapKeeps(w, steps);
    OverlapKeeps(w, steps + more);
    OthersLeave(AfterAll(w, steps), more, i);
  }

  /** What a human decides about a ticket, and whether it is marked as decided. */
  predicate SameHandling(t: Ticket, t': Ticket) {
    && t'.priority == t.priority && t'.priorityOverridden == t.priorityOverridden
    && t'.dept == t.dept && t'.deptOverridden == t.deptOverridden
  }

  /** A use case begins, then anything else happens; then its second step, and again anything else. */
  function Twice(start: Step, before: seq<Step>, second: Step, after: seq<Step>): seq<Step> {
    [start] + before + [second] + after
  }

  lemma StartWaits(w: World, start: Step, before: seq<Step>)
    requires WorldGood(w) && Starts(start) && Others(before, |w.flights|) && AllAllowed(w, [start] + before)
    ensures StepEnabled(w, start)
    ensures var w1 := AfterAll(w, [start] + before);
      WorldGood(w1) && |w.flights| < |w1.flights| && w1.flights[|w.flights|] == Started(w.s, start)
  {
    assert [] + [start] == [start];
    LawfulByJoin(Allowed, Next, w, [start], before);
    OneMore(w, [], start);
    Waits(w, [start], |w.flights|, before);
  }

  lemma SecondWaits(w: World, steps: seq<Step>, second: Step, i: nat, after: seq<Step>)
    requires WorldGood(w) && Touches(second, i) && Others(after, i) && AllAllowed(w, steps + [second] + after)
    requires i < |AfterAll(w, steps).flights|
    ensures var w1, w2 := AfterAll(w, steps), AfterAll(w, steps + [second] + after);
      && StepEnabled(w1, second)
      && WorldGood(w2) && i < |w2.flights| && w2.flights[i] == Onward(w1.s, w1.flights[i], second)
  {
    LawfulByJoin(Allowed, Next, w, steps + [second], after);
    OneMore(w, steps, second);
    Waits(w, steps + [second], i, after);
  }

  lemma TwiceWaits(w: World, start: Step, before: seq<Step>, second: Step, after: seq<Step>)
    requires WorldGood(w) && Starts(start) && Touches(second, |w.flights|)
    requires Others(before, |w.flights|) && Others(after, |w.flights|)
    requires AllAllowed(w, Twice(start, before, second, after))
    ensures StepEnabled(w, start)
    ensures var w1, w2 := AfterAll(w, [start] + before), AfterAll(w, Twice(start, before, second, after));
      && WorldGood(w2) && |w.flights| < |w2.flights|
      && w2.flights[|w.flights|] == Onward(w1.s, Started(w.s, start), second)
  {
    LawfulByJoin(Allowed, Next, w, [start] + before + [second], after);
    OneMore(w, [start] + before, second);
    StartWaits(w, start, before);
    SecondWaits(w, [start] + before, second, |w.flights|, after);
  }

  /** An analysis up to its last step, the write. */
  function Analyzes(org: nat, id: nat, before: seq<Step>, i: nat, result: Option<Prediction>,
      after: seq<Step>): seq<Step>
  {
    Twice(BeginAnalysis(org, id), before, Record(i, result), after)
  }

  lemma WriteBackEffect(w: World, i: nat)
    requires WorldGood(w) && Allowed(w, WriteBack(i))
    ensures i < |w.flights| && w.flights[i].Recorded? && w.flights[i].a.dept.Some?
    ensures var f := w.flights[i];
      && f.id in w.s.tickets && Next(w, WriteBack(i)).s == Written(w.s, f.id, f.was, f.a)
  {
    assert FlightGood(w.s, w.flights[i]);
  }

  lemma ReachesWriteBack(w: World, org: nat, id: nat, before: seq<Step>, result: Option<Prediction>, after: seq<Step>)
    requires WorldGood(w) && Others(before, |w.flights|) && Others(after, |w.flights|)
    requires AllAllowed(w, Analyzes(org, id, before, |w.flights|, result, after) + [WriteBack(|w.flights|)])
    ensures var made := AnalysisFor(AfterAll(w, [BeginAnalysis(org, id)] + before).s, org, result);
      var left := AfterAll(w, Analyzes(org, id, before, |w.flights|, result, after)).s;
      && id in w.s.tickets && id in left.tickets && made.Some? && made.value.dept.Some?
      && AfterAll(w, Analyzes(org, id, before, |w.flights|, result, after) + [WriteBack(|w.flights|)]).s ==
           Written(left, id, w.s.tickets[id], made.value)
  {
    var i := |w.flights|;
    var all := Analyzes(org, id, before, i, result, after);
    OneMore(w, all, WriteBack(i));
    TwiceWaits(w, BeginAnalysis(org, id), before, Record(i, result), after);
    WriteBackEffect(AfterAll(w, all), i);
  }

  lemma WrittenRow(s: State, id: nat, was: Ticket, a: Analysis)
    requires id in s.tickets && a.dept.Some?
    ensures var s' := Written(s, id, was, a);
      && id in s'.tickets
      && s'.tickets[id] == if Changes(was, a) && Applied(was, a).dept in s.depts then Applied(was, a) else s.tickets[id]
  {
  }

  /** Main result: an analysis reads a ticket, records its prediction and writes back, and anything else may happen in
      between. If it has something to change and the department it would put is still there, the row becomes the row it
      read with the prediction applied, whatever happened since; otherwise the row stays as the others left it. */
  lemma LateWrite(w: World, org: nat, id: nat, before: seq<Step>, result: Option<Prediction>, after: seq<Step>)
    requires WorldGood(w) && Others(before, |w.flights|) && Others(after, |w.flights|)
    requires AllAllowed(w, Analyzes(org, id, before, |w.flights|, result, after) + [WriteBack(|w.flights|)])
    ensures var made := AnalysisFor(AfterAll(w, [BeginAnalysis(org, id)] + before).s, org, result);
      var left := AfterAll(w, Analyzes(org, id, before, |w.flights|, result, after)).s;
      var end := AfterAll(w, Analyzes(org, id, before, |w.flights|, result, after) + [WriteBack(|w.flights|)]).s;
      && id in w.s.tickets && id in left.tickets && id in end.tickets && made.Some? && made.value.dept.Some?
      && var (was, a) := (w.s.tickets[id], made.value);
         end.tickets[id] ==
           if Changes(was, a) && Applied(was, a).dept in left.depts then Applied(was, a) else left.tickets[id]
  {
    ReachesWriteBack(w, org, id, before, result, after);
    var made := AnalysisFor(AfterAll(w, [BeginAnalysis(org, id)] + before).s, org, result);
    WrittenRow(AfterAll(w, Analyzes(org, id, before, |w.flights|, result, after)).s, id, w.s.tickets[id], made.value);
  }

  /** So what the others left of the ticket's priority, department and flags survives the late write exactly if the
      prediction changes nothing about the row that was read, or the department it would put is gone, or the same was
      left anyway. */
  lemma LateWriteExactly(w: World, org: nat, id: nat, before: seq<Step>, result: Option<Prediction>, after: seq<Step>)
    requires WorldGood(w) && Others(before, |w.flights|) && Others(after, |w.flights|)
    requires AllAllowed(w, Analyzes(org, id, before, |w.flights|, result, after) + [WriteBack(|w.flights|)])
    ensures var made := AnalysisFor(AfterAll(w, [BeginAnalysis(org, id)] + before).s, org, result);
      var left := AfterAll(w, Analyzes(org, id, before, |w.flights|, result, after)).s;
      var end := AfterAll(w, Analyzes(org, id, before, |w.flights|, result, after) + [WriteBack(|w.flights|)]).s;
      && id in w.s.tickets && id in left.tickets && id in end.tickets && made.Some? && made.value.dept.Some?
      && var (was, a) := (w.s.tickets[id], made.value);
         (SameHandling(left.tickets[id], end.tickets[id]) <==>
           || !Changes(was, a) || Applied(was, a).dept !in left.depts
           || SameHandling(left.tickets[id], Applied(was, a)))
  {
    LateWrite(w, org, id, before, result, after);
  }

  /** The same of a correction: it compared with the analysis that was newest at its second step, but what it writes is
      the row it had read, patched. A prediction applied to the ticket in between is taken off again. */
  lemma LatePatch(w: World, start: Step, before: seq<Step>, after: seq<Step>)
    requires WorldGood(w) && start.BeginPatch? && Others(before, |w.flights|) && Others(after, |w.flights|)
    requires AllAllowed(w, Twice(start, before, Compare(|w.flights|), after) + [WritePatch(|w.flights|)])
    ensures var s1 := AfterAll(w, [start] + before).s;
      var left := AfterAll(w, Twice(start, before, Compare(|w.flights|), after)).s;
      var end := AfterAll(w, Twice(start, before, Compare(|w.flights|), after) + [WritePatch(|w.flights|)]).s;
      && start.id in w.s.tickets && start.id in left.tickets && CheckFields(s1, start.org, start.p).Done?
      && var row := WithPatch(w.s.tickets[start.id], start.p, Latest(s1, start.id), start.now);
         end == if row.dept in left.depts then left.(tickets := left.tickets[start.id := row]) else left
  {
    UpToWritePatch(w, start, before, after);
    OneMore(w, Twice(start, before, Compare(|w.flights|), after), WritePatch(|w.flights|));
    WritePatchEffect(AfterAll(w, Twice(start, before, Compare(|w.flights|), after)), |w.flights|);
  }

  lemma CheckedMeans(s: State, s1: State, start: Step, i: nat)
    requires start.BeginPatch? && StepEnabled(World(s, []), start) && Onward(s1, Started(s, start), Compare(i)).Checked?
    ensures start.id in s.tickets && CheckFields(s1, start.org, start.p).Done?
    ensures Onward(s1, Started(s, start), Compare(i)) ==
      Checked(start.org, start.id, WithPatch(s.tickets[start.id], start.p, Latest(s1, start.id), start.now))
  {
  }

  lemma UpToWritePatch(w: World, start: Step, before: seq<Step>, after: seq<Step>)
    requires WorldGood(w) && start.BeginPatch? && Others(before, |w.flights|) && Others(after, |w.flights|)
    requires AllAllowed(w, Twice(start, before, Compare(|w.flights|), after) + [WritePatch(|w.flights|)])
    ensures var s1, w2 :=
      AfterAll(w, [start] + before).s, AfterAll(w, Twice(start, before, Compare(|w.flights|), after));
      && WorldGood(w2) && |w.flights| < |w2.flights|
      && start.id in w.s.tickets && CheckFields(s1, start.org, start.p).Done?
      && w2.flights[|w.flights|] ==
           Checked(start.org, start.id, WithPatch(w.s.tickets[start.id], start.p, Latest(s1, start.id), start.now))
  {
    OneMore(w, Twice(start, before, Compare(|w.flights|), after), WritePatch(|w.flights|));
    TwiceWaits(w, start, before, Compare(|w.flights|), after);
    StillChecked(AfterAll(w, Twice(start, before, Compare(|w.flights|), after)), |w.flights|);
    CheckedMeans(w.s, AfterAll(w, [start] + before).s, start, |w.flights|);
  }

  lemma StillChecked(w: World, i: nat)
    requires Allowed(w, WritePatch(i))
    ensures i < |w.flights| && w.flights[i].Checked?
  {
  }

  lemma WritePatchEffect(w: World, i: nat)
    requires WorldGood(w) && Allowed(w, WritePatch(i))
    ensures i < |w.flights| && w.flights[i].Checked?
    ensures var f := w.flights[i]; f.id in w.s.tickets && Next(w, WritePatch(i)).s == Put(w.s, f.id, f.was)
  {
    assert FlightGood(w.s, w.flights[i]);
  }

  /** What the others left of the ticket's priority, department and flags survives a late correction exactly if the
      department it would put is gone, or the same was left anyway. */
  lemma LatePatchExactly(w: World, start: Step, before: seq<Step>, after: seq<Step>)
    requires WorldGood(w) && start.BeginPatch? && Others(before, |w.flights|) && Others(after, |w.flights|)
    requires AllAllowed(w, Twice(start, before, Compare(|w.flights|), after) + [WritePatch(|w.flights|)])
    ensures var s1 := AfterAll(w, [start] + before).s;
      var left := AfterAll(w, Twice(start, before, Compare(|w.flights|), after)).s;
      var end := AfterAll(w, Twice(start, before, Compare(|w.flights|), after) + [WritePatch(|w.flights|)]).s;
      && start.id in w.s.tickets && start.id in left.tickets && start.id in end.tickets
      && CheckFields(s1, start.org, start.p).Done?
      && var row := WithPatch(w.s.tickets[start.id], start.p, Latest(s1, start.id), start.now);
         (SameHandling(left.tickets[start.id], end.tickets[start.id]) <==>
           row.dept !in left.depts || SameHandling(left.tickets[start.id], row))
  {
    LatePatch(w, start, before, after);
  }

  /** And of an edit of a department: it was checked on the tables of its second step, but what it writes is the row it
      had read, patched. */
  lemma LateEdit(w: World, start: Step, before: seq<Step>, after: seq<Step>)
    requires WorldGood(w) && start.BeginEdit? && Others(before, |w.flights|) && Others(after, |w.flights|)
    requires AllAllowed(w, Twice(start, before, Approve(|w.flights|), after) + [WriteEdit(|w.flights|)])
    ensures start.dept in w.s.depts
    ensures var s1 := AfterAll(w, [start] + before).s;
      var left := AfterAll(w, Twice(start, before, Approve(|w.flights|), after)).s;
      var end := AfterAll(w, Twice(start, before, Approve(|w.flights|), after) + [WriteEdit(|w.flights|)]).s;
      var (row, reply) :=
        Patched(s1, start.org, start.dept, w.s.depts[start.dept], start.name, start.description, start.category);
      reply == Done && end == PutDepartment(left, start.org, start.dept, row)
  {
    var i := |w.flights|;
    UpToWriteEdit(w, start, before, after);
    OneMore(w, Twice(start, before, Approve(i), after), WriteEdit(i));
    WriteEditEffect(AfterAll(w, Twice(start, before, Approve(i), after)), i);
  }

  lemma WriteEditEffect(w: World, i: nat)
    requires i < |w.flights| && w.flights[i].Approved?
    ensures var f := w.flights[i]; Next(w, WriteEdit(i)).s == PutDepartment(w.s, f.org, f.dept, f.row)
  {
  }

  lemma StillApproved(w: World, i: nat)
    requires Allowed(w, WriteEdit(i))
    ensures i < |w.flights| && w.flights[i].Approved?
  {
  }

  lemma ApprovedMeans(s: State, s1: State, start: Step, i: nat)
    requires start.BeginEdit? && StepEnabled(World(s, []), start) && Onward(s1, Started(s, start), Approve(i)).Approved?
    ensures start.dept in s.depts
    ensures var (row, reply) :=
        Patched(s1, start.org, start.dept, s.depts[start.dept], start.name, start.description, start.category);
      reply == Done && Onward(s1, Started(s, start), Approve(i)) == Approved(start.org, start.dept, row)
  {
  }

  lemma UpToWriteEdit(w: World, start: Step, before: seq<Step>, after: seq<Step>)
    requires WorldGood(w) && start.BeginEdit? && Others(before, |w.flights|) && Others(after, |w.flights|)
    requires AllAllowed(w, Twice(start, before, Approve(|w.flights|), after) + [WriteEdit(|w.flights|)])
    ensures start.dept in w.s.depts
    ensures var s1, w2 :=
      AfterAll(w, [start] + before).s, AfterAll(w, Twice(start, before, Approve(|w.flights|), after));
      var (row, reply) :=
        Patched(s1, start.org, start.dept, w.s.depts[start.dept], start.name, start.description, start.category);
      && reply == Done && |w.flights| < |w2.flights|
      && w2.flights[|w.flights|] == Approved(start.org, start.dept, row)
  {
    var i := |w.flights|;
    OneMore(w, Twice(start, before, Approve(i), after), WriteEdit(i));
    TwiceWaits(w, start, before, Approve(i), after);
    StillApproved(AfterAll(w, Twice(start, before, Approve(i), after)), i);
    ApprovedMeans(w.s, AfterAll(w, [start] + before).s, start, i);
  }

  /** So what the others left of the department survives exactly if it is gone, or an index refuses the row, or the same
      was left anyway. */
  lemma LateEditExactly(w: World, start: Step, before: seq<Step>, after: seq<Step>)
    requires WorldGood(w) && start.BeginEdit? && Others(before, |w.flights|) && Others(after, |w.flights|)
    requires AllAllowed(w, Twice(start, before, Approve(|w.flights|), after) + [WriteEdit(|w.flights|)])
    ensures start.dept in w.s.depts
    ensures var s1 := AfterAll(w, [start] + before).s;
      var left := AfterAll(w, Twice(start, before, Approve(|w.flights|), after)).s;
      var end := AfterAll(w, Twice(start, before, Approve(|w.flights|), after) + [WriteEdit(|w.flights|)]).s;
      var row :=
        Patched(s1, start.org, start.dept, w.s.depts[start.dept], start.name, start.description, start.category).0;
      end == left <==>
        || !InOrg(left, start.org, start.dept) || !Unclaimed(left, start.org, start.dept, row)
        || Rewritten(left.depts[start.dept], row) == left.depts[start.dept]
  {
    LateEdit(w, start, before, after);
    var left := AfterAll(w, Twice(start, before, Approve(|w.flights|), after)).s;
    var row := Patched(AfterAll(w, [start] + before).s, start.org, start.dept, w.s.depts[start.dept], start.name,
                       start.description, start.category).0;
    PutDepartmentChanges(left, start.org, start.dept, row);
  }

  lemma PutDepartmentChanges(s: State, org: nat, d: nat, row: Department)
    ensures PutDepartment(s, org, d, row) == s <==>
      !InOrg(s, org, d) || !Unclaimed(s, org, d, row) || Rewritten(s.depts[d], row) == s.depts[d]
  {
    if InOrg(s, org, d) && Rewritten(s.depts[d], row) == s.depts[d] {
      assert s.depts[d := Rewritten(s.depts[d], row)] == s.depts;
    }
    if InOrg(s, org, d) &&
      Unclaimed(s, org, d, row) { assert PutDepartment(s, org, d, row).depts[d] == Rewritten(s.depts[d], row); }
  }

  // ------------------------------------------------------- a deletion half done

  predicate Houses(s: State, d: nat, t: nat) { t in s.tickets && s.tickets[t].dept == d }

  lemma MovedAway(s: State, org: nat, d: nat, to: nat)
    requires Consistent(false, s) && OwnIfThere(s, org, d) && d != to
    ensures forall t: nat :: !Houses(Reassign(s, org, d, to), d, t)
  {
    forall t: nat | t in s.tickets ensures !Houses(Reassign(s, org, d, to), d, t) {
      assert TicketGood(false, s.depts, s.customers, s.tickets[t], AnalysesOf(s, t));
    }
  }

  lemma DropExactly(s: State, org: nat, d: nat)
    requires Consistent(false, s) && FlightGood(s, Emptied(org, d))
    ensures var s' := if InOrg(s, org, d) then Remove(s, d).0 else s;
      && (d in s'.depts <==> exists t: nat :: Houses(s, d, t)) && (d in s'.depts ==> s' == s)
  {
    if t: nat :| Houses(s, d, t) {
      assert TicketGood(false, s.depts, s.customers, s.tickets[t], AnalysesOf(s, t));
      assert d in s.depts && Remove(s, d).0 == s;
    } else {
      assert forall t :: t in s.tickets ==> !Houses(s, d, t);
    }
  }

  /** A deletion ends half done, the tickets moved and the department still there, exactly if a ticket sits there when
      it comes to delete; and each of those came after the tickets had been moved. */
  lemma LateDrop(w: World, org: nat, d: nat, before: seq<Step>, after: seq<Step>)
    requires WorldGood(w) && Others(before, |w.flights|) && Others(after, |w.flights|)
    requires AllAllowed(w, Twice(BeginDelete(org, d), before, MoveTickets(|w.flights|), after) +
                           [DropDepartment(|w.flights|)])
    ensures var i, start := |w.flights|, BeginDelete(org, d);
      var moved := AfterAll(w, [start] + before + [MoveTickets(i)]).s;
      var left := AfterAll(w, Twice(start, before, MoveTickets(i), after)).s;
      var end := AfterAll(w, Twice(start, before, MoveTickets(i), after) + [DropDepartment(i)]).s;
      && (d in end.depts <==> exists t: nat :: Houses(left, d, t))
      && (d in end.depts ==> end == left)
      && forall t: nat :: !Houses(moved, d, t)
  {
    var i, start := |w.flights|, BeginDelete(org, d);
    UpToDrop(w, org, d, before, after);
    OneMore(w, Twice(start, before, MoveTickets(i), after), DropDepartment(i));
    DropEffect(AfterAll(w, Twice(start, before, MoveTickets(i), after)), i, org, d);
    DropExactly(AfterAll(w, Twice(start, before, MoveTickets(i), after)).s, org, d);
  }

  lemma DropEffect(w: World, i: nat, org: nat, d: nat)
    requires i < |w.flights| && w.flights[i] == Emptied(org, d)
    ensures Next(w, DropDepartment(i)).s == if InOrg(w.s, org, d) then Remove(w.s, d).0 else w.s
  {
  }

  lemma UpToDrop(w: World, org: nat, d: nat, before: seq<Step>, after: seq<Step>)
    requires WorldGood(w) && Others(before, |w.flights|) && Others(after, |w.flights|)
    requires AllAllowed(w, Twice(BeginDelete(org, d), before, MoveTickets(|w.flights|), after) +
                           [DropDepartment(|w.flights|)])
    ensures var i, start := |w.flights|, BeginDelete(org, d);
      var w2 := AfterAll(w, Twice(start, before, MoveTickets(i), after));
      && WorldGood(w2) && i < |w2.flights| && w2.flights[i] == Emptied(org, d)
      && forall t: nat :: !Houses(AfterAll(w, [start] + before + [MoveTickets(i)]).s, d, t)
  {
    var i, start := |w.flights|, BeginDelete(org, d);
    OneMore(w, Twice(start, before, MoveTickets(i), after), DropDepartment(i));
    TwiceWaits(w, start, before, MoveTickets(i), after);
    StartedDeletion(w.s, org, d);
    MovedOn(AfterAll(w, [start] + before).s, org, d, DefaultOf(w.s, org).value, i);
    UpToMove(w, org, d, before, after);
  }

  lemma MovedOn(s: State, org: nat, d: nat, to: nat, i: nat)
    ensures Onward(s, Deleting(org, d, to), MoveTickets(i)) == Emptied(org, d)
  {
  }

  lemma UpToMove(w: World, org: nat, d: nat, before: seq<Step>, after: seq<Step>)
    requires WorldGood(w) && Others(before, |w.flights|)
    requires AllAllowed(w, Twice(BeginDelete(org, d), before, MoveTickets(|w.flights|), after))
    ensures forall t: nat ::
      !Houses(AfterAll(w, [BeginDelete(org, d)] + before + [MoveTickets(|w.flights|)]).s, d, t)
  {
    var i, start := |w.flights|, BeginDelete(org, d);
    LawfulByJoin(Allowed, Next, w, [start] + before + [MoveTickets(i)], after);
    OneMore(w, [start] + before, MoveTickets(i));
    StartWaits(w, start, before);
    StartedDeletion(w.s, org, d);
    MoveEmpties(AfterAll(w, [start] + before), i, org, d);
  }

  lemma StartedDeletion(s: State, org: nat, d: nat)
    requires StepEnabled(World(s, []), BeginDelete(org, d))
    ensures Started(s, BeginDelete(org, d)) == Deleting(org, d, DefaultOf(s, org).value)
  {
  }

  lemma MoveEmpties(w: World, i: nat, org: nat, d: nat)
    requires WorldGood(w) && i < |w.flights| && w.flights[i].Deleting? && w.flights[i].org == org
    requires w.flights[i].dept == d
    ensures forall t: nat :: !Houses(Next(w, MoveTickets(i)).s, d, t)
  {
    assert FlightGood(w.s, w.flights[i]);
    MovedAway(w.s, org, d, w.flights[i].to);
  }

  // ------------------------------------------- when the flags keep their meaning

  lemma {:induction false} AnalysesStay(w: World, steps: seq<Step>, t: nat)
    requires WorldGood(w) && AllAllowed(w, steps) && AnalysesOf(w.s, t) != []
    ensures AnalysesOf(AfterAll(w, steps).s, t) != []
    decreases |steps|
  {
    if steps != [] {
      NextKeeps(w, steps[0]);
      NextKeepsAnalyses(w, steps[0], t);
      AnalysesStay(Next(w, steps[0]), steps[1..], t);
    }
  }

  lemma NextKeepsAnalyses(w: World, step: Step, t: nat)
    requires WorldGood(w) && Allowed(w, step)
    ensures |AnalysesOf(Next(w, step).s, t)| >= |AnalysesOf(w.s, t)|
  {
    if step.Plain? {
      StepGrows(w.s, step.op, t);
    } else if !Starts(step) {
      EffectKeepsAnalyses(w.s, w.flights[step.i], step, t);
    }
  }

  lemma EffectKeepsAnalyses(s: State, f: Flight, step: Step, t: nat)
    ensures |AnalysesOf(Effect(s, f, step), t)| >= |AnalysesOf(s, t)|
  {
  }

  /** The analysis named the newest one says the same of the fields the row leaves open. */
  predicate Confirms(row: Ticket, a: Analysis, newest: Analysis) {
    && (row.priorityOverridden || newest.priority == a.priority)
    && (row.deptOverridden || newest.dept.None? || newest.dept == a.dept)
  }

  lemma AppliedTracks(was: Ticket, a: Analysis, all: seq<Analysis>)
    requires a.dept.Some? && all != []
    ensures Tracks(Applied(was, a), all) <==> Confirms(was, a, all[|all| - 1])
  {
  }

  lemma WrittenTracks(s: State, id: nat, was: Ticket, a: Analysis)
    requires id in s.tickets && a.dept.Some? && AnalysesOf(s, id) != []
    ensures var all := AnalysesOf(s, id);
      id in Written(s, id, was, a).tickets &&
      (Tracks(Written(s, id, was, a).tickets[id], AnalysesOf(Written(s, id, was, a), id)) <==>
        if Changes(was, a) && Applied(was, a).dept in s.depts then Confirms(was, a, all[|all| - 1])
        else Tracks(s.tickets[id], all))
  {
    AppliedTracks(was, a, AnalysesOf(s, id));
    WrittenRow(s, id, was, a);
  }

  lemma RecordLeavesOne(w: World, org: nat, id: nat, before: seq<Step>, result: Option<Prediction>, after: seq<Step>)
    requires WorldGood(w) && Others(before, |w.flights|) && Others(after, |w.flights|)
    requires AllAllowed(w, Analyzes(org, id, before, |w.flights|, result, after) + [WriteBack(|w.flights|)])
    ensures AnalysesOf(AfterAll(w, Analyzes(org, id, before, |w.flights|, result, after)).s, id) != []
  {
    var i, read := |w.flights|, [BeginAnalysis(org, id)] + before;
    ReachesWriteBack(w, org, id, before, result, after);
    OneMore(w, Analyzes(org, id, before, i, result, after), WriteBack(i));
    LawfulByJoin(Allowed, Next, w, read + [Record(i, result)], after);
    RunByJoin(Next, w, read + [Record(i, result)], after);
    OneMore(w, read, Record(i, result));
    StartWaits(w, BeginAnalysis(org, id), before);
    RecordAppends(AfterAll(w, read), i, org, id, result);
    OverlapKeeps(w, read + [Record(i, result)]);
    AnalysesStay(AfterAll(w, read + [Record(i, result)]), after, id);
  }

  lemma RecordAppends(w: World, i: nat, org: nat, id: nat, result: Option<Prediction>)
    requires WorldGood(w) && i < |w.flights| && w.flights[i].Reading? && w.flights[i].org == org
    requires w.flights[i].id == id
    requires AnalysisFor(w.s, org, result).Some?
    ensures AnalysesOf(Next(w, Record(i, result)).s, id) != []
  {
    assert FlightGood(w.s, w.flights[i]);
  }

  /** After an analysis that others may have overlapped, the ticket's open fields show its newest prediction exactly if,
      where the analysis wrote, the newest one says the same as it did; where it did not, exactly if they did before. */
  lemma TracksAfterWriteBack(w: World, org: nat, id: nat, before: seq<Step>, result: Option<Prediction>,
      after: seq<Step>)
    requires WorldGood(w) && Others(before, |w.flights|) && Others(after, |w.flights|)
    requires AllAllowed(w, Analyzes(org, id, before, |w.flights|, result, after) + [WriteBack(|w.flights|)])
    ensures var made := AnalysisFor(AfterAll(w, [BeginAnalysis(org, id)] + before).s, org, result);
      var left := AfterAll(w, Analyzes(org, id, before, |w.flights|, result, after)).s;
      var end := AfterAll(w, Analyzes(org, id, before, |w.flights|, result, after) + [WriteBack(|w.flights|)]).s;
      && id in w.s.tickets && id in left.tickets && id in end.tickets && made.Some? && made.value.dept.Some?
      && Latest(left, id).Some?
      && var (was, a) := (w.s.tickets[id], made.value);
         (Tracks(end.tickets[id], AnalysesOf(end, id)) <==>
           if Changes(was, a) && Applied(was, a).dept in left.depts then Confirms(was, a, Latest(left, id).value)
           else Tracks(left.tickets[id], AnalysesOf(left, id)))
  {
    ReachesWriteBack(w, org, id, before, result, after);
    RecordLeavesOne(w, org, id, before, result, after);
    WrittenTracks(AfterAll(w, Analyzes(org, id, before, |w.flights|, result, after)).s, id, w.s.tickets[id],
                  AnalysisFor(AfterAll(w, [BeginAnalysis(org, id)] + before).s, org, result).value);
  }

  /** What the newest analysis says is what the correction saw: for a field it sets, in the analysis it compared with;
      for another, in the one that was newest when it read the row. Where it saw none, the row itself stands for it. */
  predicate AsSeen(row: Ticket, p: Patch, read: Option<Analysis>, compared: Option<Analysis>, newest: Option<Analysis>)
  {
    newest.Some? ==>
      && (row.priorityOverridden ||
            newest.value.priority == SeenPriority(row, if p.priority.Some? then compared else read))
      && (row.deptOverridden || newest.value.dept.None?
          || newest.value.dept.value == SeenDept(row, if p.dept.Some? then compared else read))
  }

  function SeenPriority(row: Ticket, seen: Option<Analysis>): Priority {
    if seen.Some? then seen.value.priority else row.priority
  }

  function SeenDept(row: Ticket, seen: Option<Analysis>): nat {
    if seen.Some? && seen.value.dept.Some? then seen.value.dept.value else row.dept
  }

  function LastOf(all: seq<Analysis>): Option<Analysis> { if all == [] then None else Some(all[|all| - 1]) }

  lemma PatchTracks(was: Ticket, p: Patch, now: int, first: seq<Analysis>, mid: seq<Analysis>, all: seq<Analysis>)
    requires p.priority != Some(Unknown) && p.status != Some(Unknown) && Tracks(was, first)
    requires (first != [] ==> mid != []) && (mid != [] ==> all != [])
    ensures var row := WithPatch(was, p, LastOf(mid), now);
      Tracks(row, all) <==> AsSeen(row, p, LastOf(first), LastOf(mid), LastOf(all))
  {
  }

  lemma PutTracks(s: State, id: nat, row: Ticket)
    requires id in s.tickets
    ensures id in Put(s, id, row).tickets && AnalysesOf(Put(s, id, row), id) == AnalysesOf(s, id)
    ensures Put(s, id, row).tickets[id] == if row.dept in s.depts then row else s.tickets[id]
  {
  }

  lemma AnalysesThroughout(w: World, start: Step, before: seq<Step>, after: seq<Step>, id: nat)
    requires WorldGood(w) && start.BeginPatch? && Others(before, |w.flights|) && Others(after, |w.flights|)
    requires AllAllowed(w, Twice(start, before, Compare(|w.flights|), after) + [WritePatch(|w.flights|)])
    ensures var s1, left :=
      AfterAll(w, [start] + before).s, AfterAll(w, Twice(start, before, Compare(|w.flights|), after)).s;
      && (AnalysesOf(w.s, id) != [] ==> AnalysesOf(s1, id) != [])
      && (AnalysesOf(s1, id) != [] ==> AnalysesOf(left, id) != [])
  {
    var i, rest := |w.flights|, [Compare(|w.flights|)] + after;
    var all := Twice(start, before, Compare(i), after);
    OneMore(w, all, WritePatch(i));
    assert all == ([start] + before) + rest;
    LawfulByJoin(Allowed, Next, w, [start] + before, rest);
    RunByJoin(Next, w, [start] + before, rest);
    OverlapKeeps(w, [start] + before);
    if AnalysesOf(w.s, id) != [] { AnalysesStay(w, [start] + before, id); }
    if AnalysesOf(AfterAll(w, [start] + before).s, id) != [] { AnalysesStay(AfterAll(w, [start] + before), rest, id); }
  }

  /** After a correction that others may have overlapped, of a ticket whose open fields showed its newest prediction
      when it was read, they show the newest one exactly if, where the correction wrote, that one says of them what
      the correction saw; where it did not, exactly if they did before. */
  lemma TracksAfterPatch(w: World, start: Step, before: seq<Step>, after: seq<Step>)
    requires WorldGood(w) && start.BeginPatch? && Others(before, |w.flights|) && Others(after, |w.flights|)
    requires AllAllowed(w, Twice(start, before, Compare(|w.flights|), after) + [WritePatch(|w.flights|)])
    requires start.id in w.s.tickets && Tracks(w.s.tickets[start.id], AnalysesOf(w.s, start.id))
    ensures var s1 := AfterAll(w, [start] + before).s;
      var left := AfterAll(w, Twice(start, before, Compare(|w.flights|), after)).s;
      var end := AfterAll(w, Twice(start, before, Compare(|w.flights|), after) + [WritePatch(|w.flights|)]).s;
      && start.id in left.tickets && start.id in end.tickets && CheckFields(s1, start.org, start.p).Done?
      && var row := WithPatch(w.s.tickets[start.id], start.p, Latest(s1, start.id), start.now);
         (Tracks(end.tickets[start.id], AnalysesOf(end, start.id)) <==>
           if row.dept in left.depts
           then AsSeen(row, start.p, Latest(w.s, start.id), Latest(s1, start.id), Latest(left, start.id))
           else Tracks(left.tickets[start.id], AnalysesOf(left, start.id)))
  {
    var i, id := |w.flights|, start.id;
    var s1, left := AfterAll(w, [start] + before).s, AfterAll(w, Twice(start, before, Compare(i), after)).s;
    LatePatch(w, start, before, after);
    AnalysesThroughout(w, start, before, after, id);
    PatchTracks(w.s.tickets[id], start.p, start.now, AnalysesOf(w.s, id), AnalysesOf(s1, id), AnalysesOf(left, id));
    PutTracks(left, id, WithPatch(w.s.tickets[id], start.p, Latest(s1, id), start.now));
  }
}

/** Joining the staff roster to the open queue: the one-pass index against counting per person. */
module Workforce {
  import opened Options
  import opened Sequences
  import opened StableSort
  import opened TextOrder
  import opened Timestamps

  /** Timestamps are compared as text. "" is falsy and so stands for "none yet". */
  datatype Ticket = Ticket(id: string, departmentId: string, assignee: Option<string>, priority: string,
      updatedAt: string)

  datatype Work = Work(open: nat, pressing: nat, lastActiveAt: Option<string>)

  datatype Person = Person(id: string, name: string, status: string, department: Option<Dept>)
  datatype Dept = Dept(id: string, name: string)
  datatype Member = Member(person: Person, openTickets: nat, pressingTickets: nat, lastActiveAt: Option<string>)

  const EMPTY_WORK := Work(0, 0, None)

  predicate Pressing(priority: string) { priority == "high" || priority == "urgent" }

  predicate Greater(a: string, b: string) { CompareText(a, b) > 0 }

  predicate Falsy(at: Option<string>) { at.None? || at.value == "" }

  function Later(at: Option<string>, t: string): Option<string> {
    if Falsy(at) || Greater(t, at.value) then Some(t) else at
  }

  function AddTicket(w: Work, t: Ticket): Work {
    Work(w.open + 1, w.pressing + (if Pressing(t.priority) then 1 else 0), Later(w.lastActiveAt, t.updatedAt))
  }

  // ------------------------------------------------------------- reference

  /** The tickets somebody holds, in queue order. */
  function HeldBy(tickets: seq<Ticket>, who: string): (r: seq<Ticket>)
    ensures forall t :: t in r <==> t in tickets && t.assignee == Some(who)
  {
    Filter(tickets, (t: Ticket) => t.assignee == Some(who))
  }

  function Totals(tickets: seq<Ticket>): Work {
    if tickets == [] then EMPTY_WORK else AddTicket(Totals(tickets[..|tickets| - 1]), tickets[|tickets| - 1])
  }

  function CountPressing(tickets: seq<Ticket>): nat {
    |Filter(tickets, (t: Ticket) => Pressing(t.priority))|
  }

  // --------------------------------------------------------------- one pass

  function WorkOf(index: map<string, Work>, who: string): Work { if who in index then index[who] else EMPTY_WORK }

  ghost predicate Indexes(index: map<string, Work>, tickets: seq<Ticket>) {
    && (forall who :: who in index <==> HeldBy(tickets, who) != [])
    && (forall who :: WorkOf(index, who) == Totals(HeldBy(tickets, who)))
  }

  function WithTicket(index: map<string, Work>, t: Ticket): map<string, Work> {
    if t.assignee.None? then index
    else index[t.assignee.value := AddTicket(WorkOf(index, t.assignee.value), t)]
  }

  lemma IndexesOneMore(index: map<string, Work>, tickets: seq<Ticket>, i: nat)
    requires i < |tickets| && Indexes(index, tickets[..i])
    ensures Indexes(WithTicket(index, tickets[i]), tickets[..i + 1])
  {
    var index', now := WithTicket(index, tickets[i]), tickets[..i + 1];
    forall who ensures who in index' <==> HeldBy(now, who) != [] { IndexOne(index, tickets, i, who); }
    forall who ensures WorkOf(index', who) == Totals(HeldBy(now, who)) { IndexOne(index, tickets, i, who); }
  }

  lemma IndexOne(index: map<string, Work>, tickets: seq<Ticket>, i: nat, who: string)
    requires i < |tickets|
    requires who in index <==> HeldBy(tickets[..i], who) != []
    requires WorkOf(index, who) == Totals(HeldBy(tickets[..i], who))
    ensures who in WithTicket(index, tickets[i]) <==> HeldBy(tickets[..i + 1], who) != []
    ensures WorkOf(WithTicket(index, tickets[i]), who) == Totals(HeldBy(tickets[..i + 1], who))
  {
    HeldByOneMore(tickets, i, who);
  }

  /** indexByAssignee. */
  method IndexByAssignee(tickets: seq<Ticket>) returns (index: map<string, Work>)
    ensures forall who :: who in index <==> HeldBy(tickets, who) != []
    ensures forall who :: WorkOf(index, who) == Totals(HeldBy(tickets, who))
  {
    index := map[];
    for i := 0 to |tickets|
      invariant Indexes(index, tickets[..i])
    {
      var ticket := tickets[i];
      IndexesOneMore(index, tickets, i);
      if ticket.assignee.None? { continue; }
      var work := WorkOf(index, ticket.assignee.value);
      index := index[ticket.assignee.value := AddTicket(work, ticket)];
    }
    assert tickets[..|tickets|] == tickets;
  }

  lemma {:induction false} FilterLast<T(!new)>(s: seq<T>, x: T, p: T -> bool)
    ensures Filter(s + [x], p) == Filter(s, p) + if p(x) then [x] else []
  {
    if s == [] {
      assert [] + [x] == [x] && [x][1..] == [];
    } else {
      FilterLast(s[1..], x, p);
      assert (s + [x])[1..] == s[1..] + [x] && (s + [x])[0] == s[0];
      Associates(if p(s[0]) then [s[0]] else [], Filter(s[1..], p), if p(x) then [x] else []);
    }
  }

  lemma HeldByOneMore(tickets: seq<Ticket>, i: nat, who: string)
    requires i < |tickets|
    ensures var (before, after) := (HeldBy(tickets[..i], who), HeldBy(tickets[..i + 1], who));
      if tickets[i].assignee == Some(who)
      then after == before + [tickets[i]] && after != [] && Totals(after) == AddTicket(Totals(before), tickets[i])
      else after == before
  {
    assert tickets[..i + 1] == tickets[..i] + [tickets[i]];
    FilterLast(tickets[..i], tickets[i], (t: Ticket) => t.assignee == Some(who));
    var before := HeldBy(tickets[..i], who);
    assert (before + [tickets[i]])[..|before|] == before;
    assert before + [] == before;
  }

  // ------------------------------------------------ what the totals mean

  ghost function Positions<T(!new)>(s: seq<T>, p: T -> bool): set<nat> { set i: nat | i < |s| && p(s[i]) }

  lemma PositionsOneMore<T(!new)>(s: seq<T>, x: T, p: T -> bool)
    ensures |Positions(s + [x], p)| == |Positions(s, p)| + if p(x) then 1 else 0
  {
    var more := s + [x];
    assert Positions(more, p) == Positions(s, p) + if p(x) then {|s|} else {};
  }

  lemma {:induction false} FilterCounts<T(!new)>(s: seq<T>, p: T -> bool)
    ensures |Filter(s, p)| == |Positions(s, p)|
  {
    if s == [] {
      assert Positions(s, p) == {};
    } else {
      var n := |s| - 1;
      assert s == s[..n] + [s[n]];
      FilterCounts(s[..n], p);
      FilterLast(s[..n], s[n], p);
      PositionsOneMore(s[..n], s[n], p);
    }
  }

  lemma CountIs<T(!new)>(s: seq<T>, p: T -> bool, at: set<nat>)
    requires forall i: nat :: i in at <==> i < |s| && p(s[i])
    ensures |Filter(s, p)| == |at|
  {
    FilterCounts(s, p);
    assert at == Positions(s, p);
  }

  /** The greatest timestamp, as text, among these tickets. */
  ghost predicate Latest(tickets: seq<Ticket>, at: string) {
    (exists t :: t in tickets && t.updatedAt == at) && forall t :: t in tickets ==> !Greater(t.updatedAt, at)
  }

  /** The totals of a list of tickets are its length, its pressing tickets, and a latest timestamp. */
  lemma {:induction false} TotalsMean(tickets: seq<Ticket>)
    ensures Totals(tickets).open == |tickets| && Totals(tickets).pressing == CountPressing(tickets)
    ensures Totals(tickets).pressing == |set i: nat | i < |tickets| && tickets[i].priority in {"high", "urgent"}|
    ensures tickets == [] <==> Totals(tickets).lastActiveAt == None
    ensures Totals(tickets).lastActiveAt.Some? ==> Latest(tickets, Totals(tickets).lastActiveAt.value)
  {
    CountIs(tickets, (t: Ticket) => Pressing(t.priority),
      set i: nat | i < |tickets| && tickets[i].priority in {"high", "urgent"});
    TotalsCount(tickets);
    TotalsLast(tickets);
  }

  lemma {:induction false} TotalsCount(tickets: seq<Ticket>)
    ensures Totals(tickets).open == |tickets| && Totals(tickets).pressing == CountPressing(tickets)
  {
    if tickets != [] {
      var init, last := tickets[..|tickets| - 1], tickets[|tickets| - 1];
      TotalsCount(init);
      FilterLast(init, last, (t: Ticket) => Pressing(t.priority));
      assert tickets == init + [last];
    }
  }

  lemma {:induction false} TotalsLast(tickets: seq<Ticket>)
    ensures tickets == [] <==> Totals(tickets).lastActiveAt == None
    ensures Totals(tickets).lastActiveAt.Some? ==> Latest(tickets, Totals(tickets).lastActiveAt.value)
  {
    if tickets != [] {
      var init, last := tickets[..|tickets| - 1], tickets[|tickets| - 1];
      TotalsLast(init);
      LatestOneMore(init, last, Totals(init).lastActiveAt);
      assert tickets == init + [last];
    }
  }

  lemma LatestOneMore(init: seq<Ticket>, last: Ticket, at: Option<string>)
    requires at.None? <==> init == []
    requires at.Some? ==> Latest(init, at.value)
    ensures Later(at, last.updatedAt).Some? && Latest(init + [last], Later(at, last.updatedAt).value)
  {
    var r := Later(at, last.updatedAt).value;
    assert (init + [last])[|init|] == last;
    forall t | t in init + [last] ensures !Greater(t.updatedAt, r) {
      if t == last {
        TextFlips(last.updatedAt, last.updatedAt);
      } else {
        assert t in init;
        if Greater(last.updatedAt, at.value) {
          TextFlips(at.value, r);
          TextChains(t.updatedAt, at.value, r);
        }
      }
    }
    if r != last.updatedAt {
      var t :| t in init && t.updatedAt == r;
      assert t in init + [last];
    }
  }

  /** What is shown is a ticket's timestamp exactly if no other one is a greater text. */
  lemma {:induction false} GreatestIsShown(tickets: seq<Ticket>, k: nat)
    requires k < |tickets|
    ensures Totals(tickets).lastActiveAt == Some(tickets[k].updatedAt) <==>
      forall i :: 0 <= i < |tickets| ==> !Greater(tickets[i].updatedAt, tickets[k].updatedAt)
  {
    TotalsMean(tickets);
    var shown := Totals(tickets).lastActiveAt.value;
    assert tickets[k] in tickets;
    if forall i :: 0 <= i < |tickets| ==> !Greater(tickets[i].updatedAt, tickets[k].updatedAt) {
      var t :| t in tickets && t.updatedAt == shown;
      assert !Greater(shown, tickets[k].updatedAt) && !Greater(tickets[k].updatedAt, shown);
      TextFlips(shown, tickets[k].updatedAt);
    } else {
      var i :| 0 <= i < |tickets| && Greater(tickets[i].updatedAt, tickets[k].updatedAt);
      assert tickets[i] in tickets;
    }
  }

  /** Of two moments the second of which is not earlier, the first has the greater text exactly if they are
      confusable. */
  lemma GreaterIsConfusable(a: Moment, b: Moment)
    requires Printable(a) && Printable(b) && !After(a, b)
    ensures Greater(Text(a), Text(b)) <==> Confusable(a, b)
  {
    TextOrderExactly(a, b);
    if Confusable(a, b) {
      PrintedFits(a);
      PrintedFits(b);
      WithinASecond(a, b);
    }
  }

  /** The tickets' timestamps are the texts of these moments. */
  ghost predicate Stamped(tickets: seq<Ticket>, at: seq<Moment>) {
    |at| == |tickets| && forall i :: 0 <= i < |at| ==> Printable(at[i]) && tickets[i].updatedAt == Text(at[i])
  }

  /** "Last active" is the latest moment exactly if no ticket was updated in that same second with a fraction that
      begins the latest one's: the text of such an earlier moment is the greater one. */
  lemma {:induction false} LastActiveIsLatest(tickets: seq<Ticket>, at: seq<Moment>, k: nat)
    requires Stamped(tickets, at) && k < |at| && forall i :: 0 <= i < |at| ==> !After(at[i], at[k])
    ensures Totals(tickets).lastActiveAt == Some(tickets[k].updatedAt) <==>
      forall i :: 0 <= i < |at| ==> !Confusable(at[i], at[k])
  {
    GreatestIsShown(tickets, k);
    forall i | 0 <= i < |at| ensures Greater(tickets[i].updatedAt, tickets[k].updatedAt) <==> Confusable(at[i], at[k]) {
      GreaterIsConfusable(at[i], at[k]);
    }
  }

  lemma OlderOfTwoIsShown(tickets: seq<Ticket>, older: Moment, newer: Moment)
    requires |tickets| == 2 && tickets[0].updatedAt == Text(newer) && tickets[1].updatedAt == Text(older)
    requires Printable(newer) && Printable(older) && !After(older, newer) && Confusable(older, newer)
    ensures Totals(tickets).lastActiveAt == Some(Text(older))
  {
    TextFlips(Text(older), Text(older));
    GreaterIsConfusable(older, newer);
    TextFlips(Text(older), Text(newer));
    GreatestIsShown(tickets, 1);
  }

  const MIDNIGHT := Moment(2026, 1, 1, 0, 0, 0, 0)

  lemma HalfASecondLater()
    ensures var newer := MIDNIGHT.(nanos := 500_000_000);
      Printable(MIDNIGHT) && Printable(newer) && After(newer, MIDNIGHT) && Confusable(MIDNIGHT, newer)
  {
    var newer := MIDNIGHT.(nanos := 500_000_000);
    PrintedFits(MIDNIGHT);
    PrintedFits(newer);
    assert Fraction(MIDNIGHT) == "" by {
      DigitsOfNothing(9);
      assert forall i :: |Fraction(MIDNIGHT)| <= i < 9 ==> Digits(0, 9)[i] == '0';
    }
    if Fraction(newer) == Fraction(MIDNIGHT) { SameFraction(newer, MIDNIGHT); }
    assert Begins(Fraction(MIDNIGHT), Fraction(newer));
  }

  /** It happens: of two tickets updated in one second, the one without a fraction is shown although it is older. */
  lemma LastActiveCanBeOlder() returns (tickets: seq<Ticket>, older: Moment, newer: Moment)
    ensures |tickets| == 2 && After(newer, older) && Printable(newer) && Printable(older)
    ensures tickets[0].updatedAt == Text(newer) && tickets[1].updatedAt == Text(older)
    ensures Totals(tickets).lastActiveAt == Some(Text(older))
  {
    older, newer := MIDNIGHT, MIDNIGHT.(nanos := 500_000_000);
    tickets := [Ticket("a", "d", Some("p"), "low", Text(newer)), Ticket("b", "d", Some("p"), "low", Text(older))];
    HalfASecondLater();
    OlderOfTwoIsShown(tickets, older, newer);
  }

  lemma {:induction false} DigitsOfNothing(w: nat)
    ensures forall i :: 0 <= i < w ==> Digits(0, w)[i] == '0'
  {
    if w > 0 { DigitsOfNothing(w - 1); }
  }

  // ----------------------------------------------------------- conservation

  function Sum(people: seq<string>, tickets: seq<Ticket>): nat {
    if people == [] then 0 else Sum(people[..|people| - 1], tickets) + |HeldBy(tickets, people[|people| - 1])|
  }

  function Unassigned(tickets: seq<Ticket>): nat { |Filter(tickets, (t: Ticket) => t.assignee.None?)| }

  /** Tickets held by somebody who is not among these people. */
  function OffRoster(people: seq<string>, tickets: seq<Ticket>): nat {
    |Filter(tickets, (t: Ticket) => t.assignee.Some? && t.assignee.value !in people)|
  }

  ghost predicate Distinct(people: seq<string>) {
    forall i, j :: 0 <= i < j < |people| ==> people[i] != people[j]
  }

  lemma {:induction false} SumOneMore(people: seq<string>, tickets: seq<Ticket>, t: Ticket)
    requires Distinct(people)
    ensures Sum(people, tickets + [t]) ==
      Sum(people, tickets) + if t.assignee.Some? && t.assignee.value in people then 1 else 0
  {
    if people != [] {
      var init, last := people[..|people| - 1], people[|people| - 1];
      SumOneMore(init, tickets, t);
      FilterLast(tickets, t, (x: Ticket) => x.assignee == Some(last));
      assert people == init + [last];
    }
  }

  /** Every open ticket is counted once: on the person on the roster who holds it, as unassigned, or as held by somebody
      off the roster. */
  lemma {:induction false} EveryTicketIsCounted(people: seq<string>, tickets: seq<Ticket>)
    requires Distinct(people)
    ensures Sum(people, tickets) + Unassigned(tickets) + OffRoster(people, tickets) == |tickets|
  {
    if tickets == [] {
      NobodyHoldsNothing(people);
    } else {
      var init, last := tickets[..|tickets| - 1], tickets[|tickets| - 1];
      EveryTicketIsCounted(people, init);
      assert tickets == init + [last];
      SumOneMore(people, init, last);
      FilterLast(init, last, (t: Ticket) => t.assignee.None?);
      FilterLast(init, last, (t: Ticket) => t.assignee.Some? && t.assignee.value !in people);
    }
  }

  lemma {:induction false} NobodyHoldsNothing(people: seq<string>)
    ensures Sum(people, []) == 0
  {
    if people != [] { NobodyHoldsNothing(people[..|people| - 1]); }
  }

  // ----------------------------------------------------------------- tables

  function MemberOf(person: Person, work: Work): Member { Member(person, work.open, work.pressing, work.lastActiveAt) }

  /** The load shown is that of exactly these tickets. */
  ghost predicate LoadIs(m: Member, held: seq<Ticket>) {
    && m.openTickets == |held| && m.pressingTickets == CountPressing(held)
    && (m.lastActiveAt == None <==> held == [])
    && (m.lastActiveAt.Some? ==> Latest(held, m.lastActiveAt.value))
  }

  /** deriveStaff: roster order, each person with their own load. */
  method DeriveStaff(roster: seq<Person>, tickets: seq<Ticket>) returns (staff: seq<Member>)
    ensures |staff| == |roster|
    ensures forall i :: 0 <= i < |roster| ==>
      staff[i].person == roster[i] && LoadIs(staff[i], HeldBy(tickets, roster[i].id))
  {
    var work := IndexByAssignee(tickets);
    staff := seq(|roster|, i requires 0 <= i < |roster| => MemberOf(roster[i], WorkOf(work, roster[i].id)));
    forall i | 0 <= i < |roster| ensures LoadIs(staff[i], HeldBy(tickets, roster[i].id)) {
      TotalsMean(HeldBy(tickets, roster[i].id));
    }
  }

  function InDepartment(tickets: seq<Ticket>, id: string): nat {
    |Filter(tickets, (t: Ticket) => t.departmentId == id)|
  }

  /** deriveDepartments: one pass over the tickets, then one lookup per department. */
  method DeriveDepartments(departments: seq<string>, tickets: seq<Ticket>) returns (rows: seq<(string, nat)>)
    ensures |rows| == |departments|
    ensures forall i :: 0 <= i < |rows| ==> rows[i] == (departments[i], InDepartment(tickets, departments[i]))
  {
    var open: map<string, nat> := map[];
    for i := 0 to |tickets|
      invariant forall id :: (if id in open then open[id] else 0) == InDepartment(tickets[..i], id)
    {
      forall id
        ensures InDepartment(tickets[..i + 1], id) ==
          InDepartment(tickets[..i], id) + if tickets[i].departmentId == id then 1 else 0
      {
        assert tickets[..i + 1] == tickets[..i] + [tickets[i]];
        FilterLast(tickets[..i], tickets[i], (t: Ticket) => t.departmentId == id);
      }
      var id := tickets[i].departmentId;
      open := open[id := (if id in open then open[id] else 0) + 1];
    }
    assert tickets[..|tickets|] == tickets;
    rows := seq(|departments|, i requires 0 <= i < |departments| =>
      (departments[i], if departments[i] in open then open[departments[i]] else 0));
  }

  // ---------------------------------------------------------------- summary

  datatype Summary = Summary(total: nat, active: nat, inactive: int, unassigned: nat, idle: nat, unassignedTickets: nat)

  function Summarize(staff: seq<Member>, tickets: seq<Ticket>): Summary {
    var active := Filter(staff, (m: Member) => m.person.status == "active");
    Summary(|staff|, |active|, |staff| - |active|,
      |Filter(staff, (m: Member) => m.person.department.None?)|,
      |Filter(active, (m: Member) => m.openTickets == 0)|,
      Unassigned(tickets))
  }

  function SumOpen(staff: seq<Member>): nat {
    if staff == [] then 0 else SumOpen(staff[..|staff| - 1]) + staff[|staff| - 1].openTickets
  }

  lemma {:induction false} SumOpenIsSum(staff: seq<Member>, people: seq<string>, tickets: seq<Ticket>)
    requires |staff| == |people|
    requires forall i :: 0 <= i < |staff| ==> staff[i].openTickets == |HeldBy(tickets, people[i])|
    ensures SumOpen(staff) == Sum(people, tickets)
  {
    if staff != [] { SumOpenIsSum(staff[..|staff| - 1], people[..|people| - 1], tickets); }
  }

  /** What the KPI row counts: people, active people, people without a department, active people who hold nothing, and
      tickets nobody holds. */
  lemma SummaryMeans(staff: seq<Member>, people: seq<string>, tickets: seq<Ticket>)
    requires |staff| == |people|
    requires forall i :: 0 <= i < |staff| ==> staff[i].openTickets == |HeldBy(tickets, people[i])|
    ensures var k := Summarize(staff, tickets);
      && k.total == |staff|
      && k.active == |set i: nat | i < |staff| && staff[i].person.status == "active"|
      && k.unassigned == |set i: nat | i < |staff| && staff[i].person.department == None|
      && k.idle == |set i: nat | i < |staff| && staff[i].person.status == "active" && HeldBy(tickets, people[i]) == []|
      && k.unassignedTickets == |set i: nat | i < |tickets| && tickets[i].assignee == None|
  {
    IdleMeans(staff, people, tickets);
    var active := (m: Member) => m.person.status == "active";
    var none, nobody := (m: Member) => m.person.department.None?, (t: Ticket) => t.assignee.None?;
    CountIs(staff, active, set i: nat | i < |staff| && staff[i].person.status == "active");
    CountIs(staff, none, set i: nat | i < |staff| && staff[i].person.department == None);
    CountIs(tickets, nobody, set i: nat | i < |tickets| && tickets[i].assignee == None);
  }

  lemma IdleMeans(staff: seq<Member>, people: seq<string>, tickets: seq<Ticket>)
    requires |staff| == |people|
    requires forall i :: 0 <= i < |staff| ==> staff[i].openTickets == |HeldBy(tickets, people[i])|
    ensures Summarize(staff, tickets).idle ==
      |set i: nat | i < |staff| && staff[i].person.status == "active" && HeldBy(tickets, people[i]) == []|
  {
    var active, free := (m: Member) => m.person.status == "active", (m: Member) => m.openTickets == 0;
    var idle := (m: Member) => active(m) && free(m);
    FilterTwice(staff, active, free, idle);
    CountIs(staff, idle,
      set i: nat | i < |staff| && staff[i].person.status == "active" && HeldBy(tickets, people[i]) == []);
  }

  lemma {:induction false} FilterTwice<T(!new)>(s: seq<T>, p: T -> bool, q: T -> bool, both: T -> bool)
    requires forall x :: both(x) <==> p(x) && q(x)
    ensures Filter(Filter(s, p), q) == Filter(s, both)
  {
    if s != [] {
      var n := |s| - 1;
      FilterTwice(s[..n], p, q, both);
      assert s == s[..n] + [s[n]];
      FilterLast(s[..n], s[n], p);
      FilterLast(s[..n], s[n], both);
      FilterLast(Filter(s[..n], p), s[n], q);
      assert Filter(s[..n], p) + [] == Filter(s[..n], p);
    }
  }

  /** The KPI row accounts for the whole queue: the loads in the table, the unassigned tickets and those held off the
      roster add up to the tickets, and active and inactive add up to the roster. */
  lemma SummaryAccounts(staff: seq<Member>, people: seq<string>, tickets: seq<Ticket>)
    requires Distinct(people) && |staff| == |people|
    requires forall i :: 0 <= i < |staff| ==> staff[i].openTickets == |HeldBy(tickets, people[i])|
    ensures var k := Summarize(staff, tickets);
      && SumOpen(staff) + k.unassignedTickets + OffRoster(people, tickets) == |tickets|
      && k.active + k.inactive == k.total && 0 <= k.inactive && k.idle <= k.active
  {
    SumOpenIsSum(staff, people, tickets);
    EveryTicketIsCounted(people, tickets);
  }

  // ----------------------------------------------------------------- sorting

  datatype StaffSort = ByName | ByWorkload | ByRecent | ByDepartment

  /** JavaScript's x || y on comparator results. */
  function OrElse(x: int, y: int): int { if x != 0 then x else y }

  function DeptName(m: Member): string { match m.person.department case Some(d) => d.name case None => "" }

  /** The comparator sortStaff builds, over any collation `locale`. */
  function CompareStaff(locale: (string, string) -> int, sort: StaffSort, a: Member, b: Member): int {
    var byName := locale(a.person.name, b.person.name);
    match sort
    case ByWorkload => OrElse(b.openTickets - a.openTickets, byName)
    case ByRecent =>
      if Falsy(a.lastActiveAt) && Falsy(b.lastActiveAt) then byName
      else if Falsy(a.lastActiveAt) then 1
      else if Falsy(b.lastActiveAt) then -1
      else OrElse(locale(b.lastActiveAt.value, a.lastActiveAt.value), byName)
    case ByDepartment =>
      var (left, right) := (DeptName(a), DeptName(b));
      if left != "" && right == "" then -1
      else if left == "" && right != "" then 1
      else OrElse(locale(left, right), byName)
    case ByName => byName
  }

  /** With a consistent collation, every order the table offers is one a sort can rely on. */
  lemma StaffOrdersAreConsistent(locale: (string, string) -> int, sort: StaffSort)
    requires Consistent(locale)
    ensures Consistent((a: Member, b: Member) => CompareStaff(locale, sort, a, b))
  {
    var cmp := (a: Member, b: Member) => CompareStaff(locale, sort, a, b);
    forall a, b ensures cmp(a, b) < 0 <==> cmp(b, a) > 0 { SignsFlip(locale, sort, a, b); }
    forall a, b, c | cmp(a, b) <= 0 && cmp(b, c) <= 0 ensures cmp(a, c) <= 0 { OrderChains(locale, sort, a, b, c); }
  }

  lemma Chains(locale: (string, string) -> int, x: string, y: string, z: string)
    requires Consistent(locale) && locale(x, y) <= 0 && locale(y, z) <= 0
    ensures locale(x, z) <= 0
    ensures locale(x, y) < 0 || locale(y, z) < 0 ==> locale(x, z) < 0
  {
  }

  lemma SignsFlip(locale: (string, string) -> int, sort: StaffSort, a: Member, b: Member)
    requires Consistent(locale)
    ensures CompareStaff(locale, sort, a, b) < 0 <==> CompareStaff(locale, sort, b, a) > 0
  {
  }

  lemma OrderChains(locale: (string, string) -> int, sort: StaffSort, a: Member, b: Member, c: Member)
    requires Consistent(locale) && CompareStaff(locale, sort, a, b) <= 0 && CompareStaff(locale, sort, b, c) <= 0
    ensures CompareStaff(locale, sort, a, c) <= 0
  {
  }

  /** sortStaff returns the roster rearranged, in order, ties kept as they were. */
  lemma SortStaffSorts(locale: (string, string) -> int, sort: StaffSort, staff: seq<Member>)
    requires Consistent(locale)
    ensures var cmp := (a: Member, b: Member) => CompareStaff(locale, sort, a, b);
      && Sorted(cmp, Sort(cmp, staff)) && multiset(Sort(cmp, staff)) == multiset(staff)
      && SameTies(cmp, Sort(cmp, staff), staff)
  {
    var cmp := (a: Member, b: Member) => CompareStaff(locale, sort, a, b);
    StaffOrdersAreConsistent(locale, sort);
    SortSorts(cmp, staff);
    SortIsPermutation(cmp, staff);
    SortIsStable(cmp, staff);
  }

  /** What the column headers promise of two rows of the table, the first above the second. */
  ghost predicate Above(locale: (string, string) -> int, sort: StaffSort, a: Member, b: Member) {
    var named := locale(a.person.name, b.person.name) <= 0;
    match sort
    case ByName => named
    case ByWorkload => a.openTickets >= b.openTickets && (a.openTickets == b.openTickets ==> named)
    case ByDepartment =>
      && (DeptName(b) != "" ==> DeptName(a) != "")
      && (DeptName(a) != "" && DeptName(b) != "" ==> locale(DeptName(a), DeptName(b)) <= 0)
      && (DeptName(a) == DeptName(b) && locale(DeptName(a), DeptName(b)) == 0 ==> named)
    case ByRecent =>
      && (Active(b) ==> Active(a))
      && (Active(a) && Active(b) ==> locale(a.lastActiveAt.value, b.lastActiveAt.value) >= 0)
      && (!Active(a) && !Active(b) ==> named)
  }

  /** The table is in the order its header names: by name; most work first; departments by name with nobody's people
      last; or latest activity first with those who have none last. */
  lemma TableIsInOrder(locale: (string, string) -> int, sort: StaffSort, staff: seq<Member>, i: nat, j: nat)
    requires Consistent(locale) && i < j < |staff|
    ensures var r := Sort((a: Member, b: Member) => CompareStaff(locale, sort, a, b), staff);
      |r| == |staff| && Above(locale, sort, r[i], r[j])
  {
    var cmp := (a: Member, b: Member) => CompareStaff(locale, sort, a, b);
    var r := Sort(cmp, staff);
    SortStaffSorts(locale, sort, staff);
    SortIsPermutation(cmp, staff);
    assert cmp(r[i], r[j]) <= 0;
    ComparedIsAbove(locale, sort, r[i], r[j]);
  }

  lemma ComparedIsAbove(locale: (string, string) -> int, sort: StaffSort, a: Member, b: Member)
    requires Consistent(locale) && CompareStaff(locale, sort, a, b) <= 0
    ensures Above(locale, sort, a, b)
  {
  }

  // -------------------------------------------------------- most recent first

  /** The collation puts printed timestamps in the order of their characters: it tells digits, marks and the Z apart,
      and in that order. */
  ghost predicate OrdersStamps(locale: (string, string) -> int) {
    forall a: Moment, b: Moment :: Printable(a) && Printable(b) ==>
      (locale(Text(a), Text(b)) > 0 <==> CompareText(Text(a), Text(b)) > 0)
  }

  predicate Active(m: Member) { !Falsy(m.lastActiveAt) }

  /** The active members' "last active" are the texts of these moments. */
  ghost predicate StampedStaff(staff: seq<Member>, at: Member -> Moment) {
    forall m :: m in staff && Active(m) ==> Printable(at(m)) && m.lastActiveAt == Some(Text(at(m)))
  }

  /** The active members come first, the latest of them at the head. */
  ghost predicate LatestFirst(r: seq<Member>, at: Member -> Moment) {
    forall i, j :: 0 <= i < j < |r| && Active(r[j]) ==> Active(r[i]) && !After(at(r[j]), at(r[i]))
  }

  ghost predicate TellsApart(staff: seq<Member>, at: Member -> Moment) {
    forall x, y :: x in staff && y in staff && Active(x) && Active(y) ==> !Confusable(at(x), at(y))
  }

  lemma RecentIsLater(locale: (string, string) -> int, x: Member, y: Member, a: Moment, b: Moment)
    requires Consistent(locale) && OrdersStamps(locale) && Printable(a) && Printable(b)
    requires Active(x) && Active(y) && x.lastActiveAt == Some(Text(a)) && y.lastActiveAt == Some(Text(b))
    ensures !Confusable(a, b) && After(a, b) ==> CompareStaff(locale, ByRecent, x, y) < 0
    ensures Confusable(a, b) && After(b, a) ==> CompareStaff(locale, ByRecent, x, y) < 0
  {
    TextOrderExactly(a, b);
    assert locale(Text(a), Text(b)) > 0 <==> CompareText(Text(a), Text(b)) > 0;
    assert locale(Text(b), Text(a)) < 0 <==> locale(Text(a), Text(b)) > 0;
  }

  lemma ConfusableDiffer(a: Moment, b: Moment)
    requires Printable(a) && Printable(b) && Confusable(a, b)
    ensures After(a, b) || After(b, a)
  {
    PrintedFits(a);
    PrintedFits(b);
    WithinASecond(a, b);
  }

  lemma LaterIsNotSmaller(locale: (string, string) -> int, r: seq<Member>, i: nat, j: nat)
    requires Consistent(locale) && i <= j < |r|
    requires Sorted((a: Member, b: Member) => CompareStaff(locale, ByRecent, a, b), r)
    ensures CompareStaff(locale, ByRecent, r[j], r[i]) >= 0
  {
    var cmp := (a: Member, b: Member) => CompareStaff(locale, ByRecent, a, b);
    SignsFlip(locale, ByRecent, r[j], r[i]);
    if i < j { assert cmp(r[i], r[j]) <= 0; }
  }

  lemma ConfusedIsOutOfOrder(locale: (string, string) -> int, r: seq<Member>, at: Member -> Moment, x: Member,
      y: Member)
    requires Consistent(locale) && OrdersStamps(locale) && StampedStaff(r, at)
    requires Sorted((a: Member, b: Member) => CompareStaff(locale, ByRecent, a, b), r)
    requires x in r && y in r && Active(x) && Active(y) && Confusable(at(x), at(y)) && After(at(y), at(x))
    ensures !LatestFirst(r, at)
  {
    RecentIsLater(locale, x, y, at(x), at(y));
    var i :| 0 <= i < |r| && r[i] == x;
    var j :| 0 <= j < |r| && r[j] == y;
    if j <= i { LaterIsNotSmaller(locale, r, j, i); }
  }

  lemma InOrderPair(locale: (string, string) -> int, x: Member, y: Member, at: Member -> Moment)
    requires Consistent(locale) && OrdersStamps(locale) && StampedStaff([x, y], at)
    requires CompareStaff(locale, ByRecent, x, y) <= 0 && Active(y)
    requires Active(x) ==> !Confusable(at(x), at(y))
    ensures Active(x) && !After(at(y), at(x))
  {
    assert x in [x, y] && y in [x, y];
    if Active(x) && After(at(y), at(x)) {
      RecentIsLater(locale, y, x, at(y), at(x));
      SignsFlip(locale, ByRecent, y, x);
    }
  }

  lemma ApartIsInOrder(locale: (string, string) -> int, r: seq<Member>, at: Member -> Moment)
    requires Consistent(locale) && OrdersStamps(locale) && StampedStaff(r, at) && TellsApart(r, at)
    requires Sorted((a: Member, b: Member) => CompareStaff(locale, ByRecent, a, b), r)
    ensures LatestFirst(r, at)
  {
    var cmp := (a: Member, b: Member) => CompareStaff(locale, ByRecent, a, b);
    forall i, j | 0 <= i < j < |r| && Active(r[j]) ensures Active(r[i]) && !After(at(r[j]), at(r[i])) {
      assert cmp(r[i], r[j]) <= 0;
      InOrderPair(locale, r[i], r[j], at);
    }
  }

  lemma InOrderIsApart(locale: (string, string) -> int, r: seq<Member>, at: Member -> Moment)
    requires Consistent(locale) && OrdersStamps(locale) && StampedStaff(r, at) && LatestFirst(r, at)
    requires Sorted((a: Member, b: Member) => CompareStaff(locale, ByRecent, a, b), r)
    ensures TellsApart(r, at)
  {
    forall x, y | x in r && y in r && Active(x) && Active(y) ensures !Confusable(at(x), at(y)) {
      if Confusable(at(x), at(y)) {
        ConfusableDiffer(at(x), at(y));
        if After(at(y), at(x)) {
          ConfusedIsOutOfOrder(locale, r, at, x, y);
        } else {
          ConfusedIsOutOfOrder(locale, r, at, y, x);
        }
      }
    }
  }

  lemma SameStaff(staff: seq<Member>, r: seq<Member>, at: Member -> Moment)
    requires multiset(r) == multiset(staff)
    ensures StampedStaff(r, at) <==> StampedStaff(staff, at)
    ensures TellsApart(r, at) <==> TellsApart(staff, at)
  {
    forall m ensures m in r <==> m in staff { assert m in multiset(r) <==> m in multiset(staff); }
  }

  /** The table sorted by most recent shows the latest first exactly if no two of its timestamps share the second with
      one fraction beginning the other. */
  lemma MostRecentExactly(locale: (string, string) -> int, staff: seq<Member>, at: Member -> Moment)
    requires Consistent(locale) && OrdersStamps(locale) && StampedStaff(staff, at)
    ensures var cmp := (a: Member, b: Member) => CompareStaff(locale, ByRecent, a, b);
      LatestFirst(Sort(cmp, staff), at) <==> TellsApart(staff, at)
  {
    var r := Sort((a: Member, b: Member) => CompareStaff(locale, ByRecent, a, b), staff);
    SortStaffSorts(locale, ByRecent, staff);
    SameStaff(staff, r, at);
    if TellsApart(r, at) { ApartIsInOrder(locale, r, at); }
    if LatestFirst(r, at) { InOrderIsApart(locale, r, at); }
  }
}

/** What the queue's views, orders and search come to for the person looking at them. */
module QueueViews {
  import opened Options
  import opened Text
  import opened StableSort
  import opened Queue

  // ------------------------------------------------------------------ views

  /** Every ticket is in "All Open" or in "Closed", never in both; waiting, on hold and status open split the first. */
  lemma OpenOrClosed(desk: Desk, t: Ticket)
    ensures InView(desk, All, t)
    ensures InView(desk, AllOpen, t) <==> !InView(desk, ClosedView, t)
    ensures InView(desk, AllOpen, t) <==> t.status == Open || InView(desk, Waiting, t) || InView(desk, Hold, t)
    ensures !(InView(desk, Waiting, t) && InView(desk, Hold, t))
    ensures t.status == Open ==> !InView(desk, Waiting, t) && !InView(desk, Hold, t)
    ensures t.status == Closed || t.status == Resolved ==> InView(desk, ClosedView, t)
  {
  }

  ghost predicate AssignedTo(desk: Desk, agent: string, t: Ticket) { InView(desk.(agent := agent), Assigned, t) }

  /** Every open ticket is unassigned or assigned to one agent, and only open tickets are either; nobody sees
      another's. */
  lemma OpenIsSomebodys(desk: Desk, t: Ticket)
    ensures InView(desk, AllOpen, t) <==> InView(desk, Unassigned, t) || exists a :: AssignedTo(desk, a, t)
    ensures forall a :: AssignedTo(desk, a, t) ==> !InView(desk, Unassigned, t) && t.assignee == Some(a)
    ensures InView(desk, Assigned, t) <==> AssignedTo(desk, desk.agent, t)
  {
    assert desk.(agent := desk.agent) == desk;
    if t.assignee.Some? && IsLive(t) { assert AssignedTo(desk, t.assignee.value, t); }
  }

  /** An agent's own tickets are in their open view, their resolved view, or closed. */
  lemma MineIsOpenResolvedOrClosed(desk: Desk, t: Ticket)
    ensures InView(desk, ResolvedByMe, t) ==> InView(desk, ClosedView, t)
    ensures t.assignee == Some(desk.agent) <==>
      || InView(desk, Assigned, t) || InView(desk, ResolvedByMe, t)
      || (t.assignee == Some(desk.agent) && t.status == Closed)
    ensures InView(desk, ResolvedByMe, t) ==> t.status != Closed
  {
  }

  /** The customer has the last word: a message of theirs that only notes follow. */
  ghost predicate CustomerSpokeLast(ms: seq<Message>) {
    exists i :: 0 <= i < |ms| && ms[i].kind.FromCustomer? && forall j :: i < j < |ms| ==> ms[j].kind.Note?
  }

  lemma {:induction false} LastWord(ms: seq<Message>)
    ensures var vs := Visible(ms); (vs != [] && vs[|vs| - 1].kind.FromCustomer?) <==> CustomerSpokeLast(ms)
  {
    if ms != [] {
      var init, last := ms[..|ms| - 1], ms[|ms| - 1];
      assert ms == init + [last];
      VisibleAppend(init, last);
      LastWord(init);
      SpokeBefore(init, last);
    }
  }

  lemma SpokeBefore(ms: seq<Message>, m: Message)
    ensures CustomerSpokeLast(ms + [m]) <==> m.kind.FromCustomer? || (m.kind.Note? && CustomerSpokeLast(ms))
  {
    var more := ms + [m];
    if m.kind.FromCustomer? { assert more[|ms|].kind.FromCustomer?; }
    if i :| 0 <= i < |ms| && ms[i].kind.FromCustomer? && forall j :: i < j < |ms| ==> ms[j].kind.Note? {
      assert more[i].kind.FromCustomer?;
    }
    if i :| 0 <= i < |more| && more[i].kind.FromCustomer? && forall j :: i < j < |more| ==> more[j].kind.Note? {
      if i < |ms| {
        assert ms[i].kind.FromCustomer? && more[|ms|].kind.Note?;
        assert forall j :: i < j < |ms| ==> ms[j].kind.Note? by {
          forall j | i < j < |ms| ensures ms[j].kind.Note? { assert more[j] == ms[j]; }
        }
      }
    }
  }

  /** The wait is counted from the customer's latest message, or from the start if the customer has not written. */
  lemma WaitCountsFrom(t: Ticket)
    ensures (forall i :: 0 <= i < |t.messages| ==> !t.messages[i].kind.FromCustomer?) ==>
      WaitingSince(t) == t.createdAt
    ensures (exists i :: 0 <= i < |t.messages| && t.messages[i].kind.FromCustomer?) ==>
      exists i :: 0 <= i < |t.messages| && IsLastCustomer(t.messages, i) && WaitingSince(t) == t.messages[i].sentAt
  {
    LastCustomerIsLatest(t.messages);
  }

  /** Needing attention: open, the customer spoke last, and 59 and a half minutes or less are left; minutes are rounded
      before they are compared, so with a little under an hour left a ticket does not show up yet. */
  lemma AttentionExactly(desk: Desk, t: Ticket)
    ensures InView(desk, Attention, t) <==>
      InView(desk, AllOpen, t) && CustomerSpokeLast(t.messages) && t.slaDueAt - desk.now <= 3_570_000
  {
    LastWord(t.messages);
  }

  /** The counts in the sidebar. */
  function CountOf(desk: Desk, all: seq<Ticket>, v: ViewId): nat
  {
    EveryViewIsCounted(desk, all, v);
    CountsByView(desk, all)[v]
  }

  lemma EveryViewIsCounted(desk: Desk, all: seq<Ticket>, v: ViewId)
    ensures v in CountsByView(desk, all)
    ensures CountsByView(desk, all)[v] == |Filter(all, ViewFilter(desk, v))|
  {
    EveryViewIsListed(v);
    CountsAreFilters(desk, all, VIEW_IDS, v);
  }

  lemma {:induction false} FilterSplits<T(!new)>(s: seq<T>, p: T -> bool, q: T -> bool, r: T -> bool)
    requires forall x :: p(x) <==> q(x) || r(x)
    requires forall x :: !(q(x) && r(x))
    ensures |Filter(s, p)| == |Filter(s, q)| + |Filter(s, r)|
  {
    if s != [] {
      FilterSplits(s[1..], p, q, r);
      assert s == [s[0]] + s[1..];
      FilterHead(s[0], s[1..], p);
      FilterHead(s[0], s[1..], q);
      FilterHead(s[0], s[1..], r);
    }
  }

  lemma {:induction false} FilterAll<T(!new)>(s: seq<T>, p: T -> bool)
    requires forall x :: p(x)
    ensures Filter(s, p) == s
  {
    if s != [] { FilterAll(s[1..], p); }
  }

  lemma ViewsAddUp(desk: Desk, all: seq<Ticket>)
    ensures Filter(all, ViewFilter(desk, All)) == all
    ensures |Filter(all, ViewFilter(desk, AllOpen))| + |Filter(all, ViewFilter(desk, ClosedView))| == |all|
  {
    var any, open, closed := ViewFilter(desk, All), ViewFilter(desk, AllOpen), ViewFilter(desk, ClosedView);
    forall t: Ticket ensures any(t) && (open(t) <==> !closed(t)) { OpenOrClosed(desk, t); }
    FilterAll(all, any);
    FilterSplits(all, any, open, closed);
  }

  /** The sidebar adds up: open and closed make all tickets. */
  lemma CountsAddUp(desk: Desk, all: seq<Ticket>)
    ensures CountOf(desk, all, All) == |all|
    ensures CountOf(desk, all, AllOpen) + CountOf(desk, all, ClosedView) == |all|
  {
    ViewsAddUp(desk, all);
    EveryViewIsCounted(desk, all, All);
    EveryViewIsCounted(desk, all, AllOpen);
    EveryViewIsCounted(desk, all, ClosedView);
  }

  // ---------------------------------------------------------------- search

  /** A search for nothing finds everything; any other finds the tickets with the trimmed text somewhere in the id, the
      subject, the customer's name or company, without regard to case, or in a tag as the tag is written. */
  lemma SearchExactly(t: Ticket, q: string)
    ensures TrimSpace(q) == "" ==> MatchesSearch(t, q)
    ensures TrimSpace(q) != "" ==>
      var needle := Lower(TrimSpace(q));
      (MatchesSearch(t, q) <==>
        || Contains(Lower(t.id), needle) || Contains(Lower(t.subject), needle)
        || Contains(Lower(t.customerName), needle) || Contains(Lower(t.company), needle)
        || exists tag :: tag in t.tags && Contains(tag, needle))
  {
  }

  // ----------------------------------------------------------------- order

  /** The two are in the order the menu names: newest or oldest change first, nearest response target first, or most
      urgent first; among equally urgent ones those whose customer spoke last, and among those the longest wait. */
  ghost predicate InOrder(desk: Desk, sort: SortId, a: Ticket, b: Ticket) {
    match sort
    case Newest => a.updatedAt >= b.updatedAt
    case Oldest => a.updatedAt <= b.updatedAt
    case Sla => a.slaDueAt <= b.slaDueAt
    case ByPrio =>
      && (b.priority == High ==> a.priority == High) && (a.priority == Low ==> b.priority == Low)
      && (a.priority == b.priority && CustomerSpokeLast(b.messages) ==> CustomerSpokeLast(a.messages))
      && (a.priority == b.priority && (CustomerSpokeLast(a.messages) <==> CustomerSpokeLast(b.messages)) ==>
            MinutesSince(desk, WaitingSince(a)) >= MinutesSince(desk, WaitingSince(b)))
  }

  lemma ComparedIsInOrder(desk: Desk, sort: SortId, a: Ticket, b: Ticket)
    requires Compare(desk, sort)(a, b) <= 0
    ensures InOrder(desk, sort, a, b)
  {
    if sort.ByPrio? { UrgentFirst(desk, a, b); }
  }

  lemma AwaitingMeans(t: Ticket)
    ensures AwaitingReply(t) <==> CustomerSpokeLast(t.messages)
  {
    LastWord(t.messages);
  }

  lemma UrgentFirst(desk: Desk, a: Ticket, b: Ticket)
    requires ByPriority(desk, a, b) <= 0
    ensures InOrder(desk, ByPrio, a, b)
  {
    PriorityIsLexicographic(desk, a, b);
    AwaitingMeans(a);
    AwaitingMeans(b);
    RanksTell(a.priority, b.priority);
  }

  lemma RanksTell(p: Priority, q: Priority)
    ensures Rank(p) == Rank(q) <==> p == q
    ensures Rank(p) > Rank(q) ==> p != Low && q != High
  {
  }

  /** What the user sees behind a query: the tickets of the view that pass both facets and the search, no other, and any
      two of them in the order the menu names. */
  lemma QueueMeans(desk: Desk, all: seq<Ticket>, q: Query)
    ensures var r := Ordered(desk, all, q);
      && (forall t :: t in r <==>
            && t in all && InView(desk, q.view, t) && MatchesSearch(t, q.q)
            && (q.priority == None || q.priority == Some(t.priority))
            && (q.status == None || q.status == Some(t.status)))
      && forall i, j :: 0 <= i < j < |r| ==> InOrder(desk, q.sort, r[i], r[j])
  {
    var r, kept := Ordered(desk, all, q), Filter(all, SelectedFilter(desk, q));
    SelectionIsOrdered(desk, all, q);
    forall t ensures t in r <==> t in kept { assert t in multiset(r) <==> t in multiset(kept); }
    forall i, j | 0 <= i < j < |r| ensures InOrder(desk, q.sort, r[i], r[j]) {
      ComparedIsInOrder(desk, q.sort, r[i], r[j]);
    }
  }

  /** Every page but the last has six tickets. */
  lemma PagesAreFull<T>(s: seq<T>, page: int)
    ensures var (items, p, count) := Page(s, page); |items| <= 6 && (p < count ==> |items| == 6)
  {
  }
}

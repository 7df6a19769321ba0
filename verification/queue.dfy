/** The staff queue: one list of tickets, seen through a view, facets, a search, an order and a page. */
module Queue {
  import opened Options
  import opened Text
  import opened Sequences
  import opened StableSort

  const PAGE_SIZE: nat := 6

  datatype Priority = Low | Medium | High
  datatype Status = Open | Pending | OnHold | Resolved | Closed
  datatype Kind = FromCustomer | FromAgent | Note

  /** Times are milliseconds. */
  datatype Message = Message(kind: Kind, sentAt: int)

  datatype Ticket = Ticket(id: string, subject: string, customerName: string, company: string, tags: seq<string>,
                           assignee: Option<string>, priority: Priority, status: Status,
                           createdAt: int, updatedAt: int, slaDueAt: int, messages: seq<Message>)

  datatype ViewId = Assigned | Attention | Waiting | ResolvedByMe | All | Unassigned | AllOpen | Hold | ClosedView
  datatype SortId = Newest | Oldest | ByPrio | Sla

  datatype Query = Query(view: ViewId, q: string, priority: Option<Priority>, status: Option<Status>, sort: SortId,
      page: int)

  /** Who is looking, and the frozen clock every age is measured against. */
  datatype Desk = Desk(agent: string, now: int)

  function Rank(p: Priority): nat { match p case Low => 0 case Medium => 1 case High => 2 }

  predicate IsLive(t: Ticket) { t.status in {Open, Pending, OnHold} }

  function Visible(ms: seq<Message>): (vs: seq<Message>)
    ensures forall m :: m in vs <==> m in ms && !m.kind.Note?
  {
    if ms == [] then [] else (if ms[0].kind.Note? then [] else [ms[0]]) + Visible(ms[1..])
  }

  /** The customer wrote last and nobody answered; notes do not count. */
  predicate AwaitingReply(t: Ticket) {
    var visible := Visible(t.messages);
    visible != [] && visible[|visible| - 1].kind.FromCustomer?
  }

  function LastCustomer(ms: seq<Message>): Option<Message> {
    if ms == [] then None
    else if ms[|ms| - 1].kind.FromCustomer? then Some(ms[|ms| - 1])
    else LastCustomer(ms[..|ms| - 1])
  }

  function WaitingSince(t: Ticket): int {
    match LastCustomer(t.messages) case Some(m) => m.sentAt case None => t.createdAt
  }

  /** Math.round((now - at) / 60000): halves round up. */
  function MinutesSince(desk: Desk, at: int): int { (desk.now - at + 30_000) / 60_000 }

  predicate NeedsAttention(desk: Desk, t: Ticket) {
    IsLive(t) && MinutesSince(desk, t.slaDueAt) > -60 && AwaitingReply(t)
  }

  predicate InView(desk: Desk, v: ViewId, t: Ticket) {
    var mine := t.assignee == Some(desk.agent);
    match v
    case Assigned => mine && IsLive(t)
    case Attention => NeedsAttention(desk, t)
    case Waiting => t.status == Pending
    case ResolvedByMe => mine && t.status == Resolved
    case All => true
    case Unassigned => t.assignee == None && IsLive(t)
    case AllOpen => IsLive(t)
    case Hold => t.status == OnHold
    case ClosedView => t.status == Closed || t.status == Resolved
  }

  predicate MatchesSearch(t: Ticket, q: string) {
    var needle := Lower(TrimSpace(q));
    || needle == ""
    || Index(Lower(t.id), needle) >= 0 || Index(Lower(t.subject), needle) >= 0
    || Index(Lower(t.customerName), needle) >= 0 || Index(Lower(t.company), needle) >= 0
    || exists tag :: tag in t.tags && Index(tag, needle) >= 0
  }

  function Number(b: bool): int { if b then 1 else 0 }

  /** Most urgent first, then whoever waits for us, then whoever has waited longest. */
  function ByPriority(desk: Desk, a: Ticket, b: Ticket): int {
    var rank := Rank(b.priority) - Rank(a.priority);
    if rank != 0 then rank
    else
      var waiting := Number(AwaitingReply(b)) - Number(AwaitingReply(a));
      if waiting != 0 then waiting
      else MinutesSince(desk, WaitingSince(b)) - MinutesSince(desk, WaitingSince(a))
  }

  function Compare(desk: Desk, sort: SortId): (Ticket, Ticket) -> int {
    match sort
    case Newest => (a: Ticket, b: Ticket) => b.updatedAt - a.updatedAt
    case Oldest => (a: Ticket, b: Ticket) => a.updatedAt - b.updatedAt
    case ByPrio => (a: Ticket, b: Ticket) => ByPriority(desk, a, b)
    case Sla => (a: Ticket, b: Ticket) => a.slaDueAt - b.slaDueAt
  }

  predicate Selected(desk: Desk, q: Query, t: Ticket) {
    && InView(desk, q.view, t)
    && (q.priority.Some? ==> t.priority == q.priority.value)
    && (q.status.Some? ==> t.status == q.status.value)
    && MatchesSearch(t, q.q)
  }

  function ViewFilter(desk: Desk, v: ViewId): Ticket -> bool { (t: Ticket) => InView(desk, v, t) }
  function PriorityFilter(q: Query): Ticket -> bool
  {
    (t: Ticket) => q.priority.Some? ==> t.priority == q.priority.value
  }
  function StatusFilter(q: Query): Ticket -> bool { (t: Ticket) => q.status.Some? ==> t.status == q.status.value }
  function SearchFilter(q: Query): Ticket -> bool { (t: Ticket) => MatchesSearch(t, q.q) }
  function SelectedFilter(desk: Desk, q: Query): Ticket -> bool { (t: Ticket) => Selected(desk, q, t) }

  datatype Paged = Paged(items: seq<Ticket>, total: nat, page: nat, pageSize: nat, pageCount: nat)

  function CeilDiv(n: nat, d: nat): nat
    requires d > 0
  {
    (n + d - 1) / d
  }

  function Max(a: int, b: int): int { if a >= b then a else b }
  function Min(a: int, b: int): int { if a <= b then a else b }

  /** Array.prototype.slice with non-negative bounds. */
  function Slice<T>(s: seq<T>, from: nat, to: nat): seq<T> {
    if from >= |s| || to <= from then [] else s[from..Min(to, |s|)]
  }

  function Page<T>(s: seq<T>, page: int): (seq<T>, nat, nat) {
    var pageCount := Max(1, CeilDiv(|s|, PAGE_SIZE));
    var p := Min(Max(1, page), pageCount);
    var start := (p - 1) * PAGE_SIZE;
    (Slice(s, start, start + PAGE_SIZE), p, pageCount)
  }

  function Ordered(desk: Desk, all: seq<Ticket>, q: Query): seq<Ticket> {
    Sort(Compare(desk, q.sort), Filter(all, SelectedFilter(desk, q)))
  }

  /** selectTickets. The four filters in a row keep what passes all of them. */
  function SelectTickets(desk: Desk, all: seq<Ticket>, q: Query): Paged {
    var filtered := Sort(Compare(desk, q.sort),
      Filter(Filter(Filter(Filter(all, ViewFilter(desk, q.view)), PriorityFilter(q)), StatusFilter(q)),
        SearchFilter(q)));
    var (items, page, pageCount) := Page(filtered, q.page);
    Paged(items, |filtered|, page, PAGE_SIZE, pageCount)
  }

  const VIEW_IDS := [Assigned, Attention, Waiting, ResolvedByMe, All, Unassigned, AllOpen, Hold, ClosedView]

  function CountsFrom(desk: Desk, all: seq<Ticket>, views: seq<ViewId>): map<ViewId, nat> {
    if views == [] then map[]
    else
      CountsFrom(desk, all, views[..|views| - 1])
      [views[|views| - 1] := |Filter(all, ViewFilter(desk, views[|views| - 1]))|]
  }

  function CountsByView(desk: Desk, all: seq<Ticket>): map<ViewId, nat> { CountsFrom(desk, all, VIEW_IDS) }

  // --------------------------------------------------------------- filters

  lemma FilterHead<T(!new)>(x: T, s: seq<T>, p: T -> bool)
    ensures Filter([x] + s, p) == if p(x) then [x] + Filter(s, p) else Filter(s, p)
  {
  }

  lemma {:induction false} FilterTwice<T(!new)>(s: seq<T>, p: T -> bool, q: T -> bool, both: T -> bool)
    requires forall x :: both(x) <==> p(x) && q(x)
    ensures Filter(Filter(s, p), q) == Filter(s, both)
  {
    if s != [] {
      FilterTwice(s[1..], p, q, both);
      assert s == [s[0]] + s[1..];
      FilterHead(s[0], s[1..], p);
      FilterHead(s[0], Filter(s[1..], p), q);
      FilterHead(s[0], s[1..], both);
    }
  }

  lemma {:induction false} FilterSame<T(!new)>(s: seq<T>, p: T -> bool, q: T -> bool)
    requires forall x :: p(x) <==> q(x)
    ensures Filter(s, p) == Filter(s, q)
  {
    if s != [] { FilterSame(s[1..], p, q); }
  }

  // --------------------------------------------------------------- waiting

  ghost predicate IsLastCustomer(ms: seq<Message>, i: nat)
    requires i < |ms|
  {
    ms[i].kind.FromCustomer? && forall j :: i < j < |ms| ==> !ms[j].kind.FromCustomer?
  }

  /** The wait is counted from the customer's latest message, if there is one. */
  lemma {:induction false} LastCustomerIsLatest(ms: seq<Message>)
    ensures LastCustomer(ms) == None <==> forall i :: 0 <= i < |ms| ==> !ms[i].kind.FromCustomer?
    ensures LastCustomer(ms).Some? ==>
      exists i :: 0 <= i < |ms| && IsLastCustomer(ms, i) && ms[i] == LastCustomer(ms).value
  {
    if ms != [] {
      var init := ms[..|ms| - 1];
      LastCustomerIsLatest(init);
      if ms[|ms| - 1].kind.FromCustomer? {
        assert IsLastCustomer(ms, |ms| - 1);
      } else if LastCustomer(init).Some? {
        var i :| 0 <= i < |init| && IsLastCustomer(init, i) && init[i] == LastCustomer(init).value;
        assert forall j :: i <= j < |init| ==> ms[j] == init[j];
        assert IsLastCustomer(ms, i);
      } else {
        assert forall i :: 0 <= i < |init| ==> ms[i] == init[i];
      }
    }
  }

  lemma {:induction false} VisibleEnd(ms: seq<Message>)
    ensures var vs := Visible(ms);
      vs != [] && vs[|vs| - 1].kind.FromCustomer? ==> LastCustomer(ms) == Some(vs[|vs| - 1])
  {
    if ms != [] {
      var init, last := ms[..|ms| - 1], ms[|ms| - 1];
      VisibleAppend(init, last);
      assert ms == init + [last];
      VisibleEnd(init);
    }
  }

  lemma {:induction false} VisibleAppend(ms: seq<Message>, m: Message)
    ensures Visible(ms + [m]) == Visible(ms) + if m.kind.Note? then [] else [m]
  {
    if ms == [] {
      assert [] + [m] == [m] && [m][1..] == [];
    } else {
      VisibleAppend(ms[1..], m);
      assert (ms + [m])[1..] == ms[1..] + [m] && (ms + [m])[0] == ms[0];
      Associates(if ms[0].kind.Note? then [] else [ms[0]], Visible(ms[1..]), if m.kind.Note? then [] else [m]);
    }
  }

  /** awaitingReply and waitingSince agree: if the customer wrote last, the wait is counted from that message. */
  lemma WaitStartsAtLastWord(t: Ticket)
    requires AwaitingReply(t)
    ensures WaitingSince(t) == Visible(t.messages)[|Visible(t.messages)| - 1].sentAt
  {
    VisibleEnd(t.messages);
  }

  // --------------------------------------------------------------- ordering

  /** Every order the queue offers is one a sort can rely on; byPriority is a total preorder. */
  lemma OrdersAreConsistent(desk: Desk, sort: SortId)
    ensures Consistent(Compare(desk, sort))
  {
    if sort.ByPrio? {
      var cmp := Compare(desk, sort);
      forall a, b ensures cmp(a, b) < 0 <==> cmp(b, a) > 0 {
        PriorityIsLexicographic(desk, a, b);
        PriorityIsLexicographic(desk, b, a);
      }
      forall a, b, c | cmp(a, b) <= 0 && cmp(b, c) <= 0 ensures cmp(a, c) <= 0 {
        PriorityIsLexicographic(desk, a, b);
        PriorityIsLexicographic(desk, b, c);
        PriorityIsLexicographic(desk, a, c);
      }
    }
  }

  /** What byPriority compares: priority, then who waits for us, then the minutes waited, each descending. */
  lemma PriorityIsLexicographic(desk: Desk, a: Ticket, b: Ticket)
    ensures var (ra, rb) := (Rank(a.priority), Rank(b.priority));
      var (wa, wb) := (Number(AwaitingReply(a)), Number(AwaitingReply(b)));
      var (ma, mb) := (MinutesSince(desk, WaitingSince(a)), MinutesSince(desk, WaitingSince(b)));
      && (ByPriority(desk, a, b) <= 0 <==> ra > rb || (ra == rb && (wa > wb || (wa == wb && ma >= mb))))
      && (ByPriority(desk, a, b) < 0 <==> ra > rb || (ra == rb && (wa > wb || (wa == wb && ma > mb))))
      && (ByPriority(desk, a, b) > 0 <==> ra < rb || (ra == rb && (wa < wb || (wa == wb && ma < mb))))
  {
  }

  // ---------------------------------------------------------------- paging

  function Concat<T>(parts: seq<seq<T>>): seq<T> {
    if parts == [] then [] else Concat(parts[..|parts| - 1]) + parts[|parts| - 1]
  }

  function Pages<T>(s: seq<T>, n: nat): (parts: seq<seq<T>>)
    ensures |parts| == n
  {
    seq(n, i requires 0 <= i < n => Page(s, i + 1).0)
  }

  lemma CeilDivBounds(n: nat, d: nat)
    requires d > 0
    ensures CeilDiv(n, d) * d >= n && (n > 0 ==> (CeilDiv(n, d) - 1) * d < n)
  {
  }

  lemma PageInRange<T>(s: seq<T>, n: nat)
    requires 1 <= n <= Page(s, 1).2
    ensures (n - 1) * PAGE_SIZE <= |s|
    ensures Page(s, n).0 == s[(n - 1) * PAGE_SIZE..Min(n * PAGE_SIZE, |s|)]
  {
  }

  lemma {:induction false} FirstPages<T>(s: seq<T>, n: nat)
    requires n <= Page(s, 1).2
    ensures Concat(Pages(s, n)) == s[..Min(n * PAGE_SIZE, |s|)]
  {
    if n > 0 {
      FirstPages(s, n - 1);
      var parts := Pages(s, n);
      assert parts[..n - 1] == Pages(s, n - 1);
      PageInRange(s, n);
      assert Concat(parts) == s[..(n - 1) * PAGE_SIZE] + s[(n - 1) * PAGE_SIZE..Min(n * PAGE_SIZE, |s|)];
    }
  }

  /** Every page in range holds at most six tickets, and an out-of-range page is the page it is clamped to. */
  lemma PageIsClamped<T>(s: seq<T>, page: int)
    ensures var (items, p, count) := Page(s, page);
      && 1 <= p <= count && (1 <= page <= count ==> p == page)
      && Page(s, p) == (items, p, count)
      && |items| <= PAGE_SIZE && (s != [] ==> items != [])
  {
  }

  /** Pages one to pageCount, put together, are the whole list. */
  lemma PagesCover<T>(s: seq<T>)
    ensures Concat(Pages(s, Page(s, 1).2)) == s
  {
    FirstPages(s, Page(s, 1).2);
    CeilDivBounds(|s|, PAGE_SIZE);
  }

  // --------------------------------------------------------------- together

  /** The tickets behind a query: exactly the selected ones, in the chosen order, ties in their original order. */
  lemma SelectionIsOrdered(desk: Desk, all: seq<Ticket>, q: Query)
    ensures var r := Ordered(desk, all, q);
      && Sorted(Compare(desk, q.sort), r)
      && multiset(r) == multiset(Filter(all, SelectedFilter(desk, q)))
      && SameTies(Compare(desk, q.sort), r, Filter(all, SelectedFilter(desk, q)))
  {
    var kept := Filter(all, SelectedFilter(desk, q));
    OrdersAreConsistent(desk, q.sort);
    SortSorts(Compare(desk, q.sort), kept);
    SortIsPermutation(Compare(desk, q.sort), kept);
    SortIsStable(Compare(desk, q.sort), kept);
  }

  lemma FourFiltersAreOne(desk: Desk, all: seq<Ticket>, q: Query)
    ensures
      Filter(Filter(Filter(Filter(all, ViewFilter(desk, q.view)), PriorityFilter(q)), StatusFilter(q)), SearchFilter(q))
      == Filter(all, SelectedFilter(desk, q))
  {
    var v, p, s, m := ViewFilter(desk, q.view), PriorityFilter(q), StatusFilter(q), SearchFilter(q);
    var vp, vps := (t: Ticket) => v(t) && p(t), (t: Ticket) => v(t) && p(t) && s(t);
    FilterTwice(all, v, p, vp);
    FilterTwice(all, vp, s, vps);
    FilterTwice(all, vps, m, SelectedFilter(desk, q));
  }

  /** What the user sees on page k of a query. */
  function PageItems(desk: Desk, all: seq<Ticket>, q: Query, k: int): seq<Ticket> {
    SelectTickets(desk, all, q.(page := k)).items
  }

  function AllPages(desk: Desk, all: seq<Ticket>, q: Query): (parts: seq<seq<Ticket>>)
    ensures |parts| == SelectTickets(desk, all, q).pageCount
  {
    seq(SelectTickets(desk, all, q).pageCount, i requires 0 <= i => PageItems(desk, all, q, i + 1))
  }

  lemma SelectIsPage(desk: Desk, all: seq<Ticket>, q: Query, k: int)
    ensures var s := Ordered(desk, all, q);
      SelectTickets(desk, all, q.(page := k)) == Paged(Page(s, k).0, |s|, Page(s, k).1, PAGE_SIZE, Page(s, k).2)
  {
    FourFiltersAreOne(desk, all, q.(page := k));
    FilterSame(all, SelectedFilter(desk, q.(page := k)), SelectedFilter(desk, q));
  }

  lemma ItemsArePage(desk: Desk, all: seq<Ticket>, q: Query, k: int)
    ensures PageItems(desk, all, q, k) == Page(Ordered(desk, all, q), k).0
  {
    SelectIsPage(desk, all, q, k);
  }

  lemma CountIsPageCount(desk: Desk, all: seq<Ticket>, q: Query)
    ensures SelectTickets(desk, all, q).pageCount == Page(Ordered(desk, all, q), 1).2
    ensures SelectTickets(desk, all, q).total == |Ordered(desk, all, q)|
  {
    assert q.(page := q.page) == q;
    SelectIsPage(desk, all, q, q.page);
  }

  lemma AllPagesArePages(desk: Desk, all: seq<Ticket>, q: Query)
    ensures AllPages(desk, all, q) == Pages(Ordered(desk, all, q), Page(Ordered(desk, all, q), 1).2)
  {
    CountIsPageCount(desk, all, q);
    var left, right := AllPages(desk, all, q), Pages(Ordered(desk, all, q), Page(Ordered(desk, all, q), 1).2);
    forall i | 0 <= i < |left| ensures left[i] == right[i] { ItemsArePage(desk, all, q, i + 1); }
  }

  /** Main result. For any tickets and any query, the items of pages one to pageCount put together are the selected
      tickets in sorted order, none lost and none repeated, whatever page the query itself asks for. */
  lemma PagesAreTheSelection(desk: Desk, all: seq<Ticket>, q: Query)
    ensures Concat(AllPages(desk, all, q)) == Ordered(desk, all, q)
    ensures SelectTickets(desk, all, q).total == |Ordered(desk, all, q)|
  {
    AllPagesArePages(desk, all, q);
    PagesCover(Ordered(desk, all, q));
    CountIsPageCount(desk, all, q);
  }

  /** A page number out of range gives the page it is clamped to. */
  lemma OutOfRangeIsClamped(desk: Desk, all: seq<Ticket>, q: Query)
    ensures var r := SelectTickets(desk, all, q);
      && 1 <= r.page <= r.pageCount && r == SelectTickets(desk, all, q.(page := r.page))
      && (1 <= q.page <= r.pageCount ==> r.page == q.page)
  {
    var s := Ordered(desk, all, q);
    assert q.(page := q.page) == q;
    SelectIsPage(desk, all, q, q.page);
    SelectIsPage(desk, all, q, Page(s, q.page).1);
    PageIsClamped(s, q.page);
  }

  lemma EmptySearchMatches(t: Ticket)
    ensures MatchesSearch(t, "")
  {
  }

  /** The sidebar's number for a view is the total the queue reports for that view without facets or search. */
  lemma CountsMatchTotals(desk: Desk, all: seq<Ticket>, v: ViewId, sort: SortId, page: int)
    ensures v in CountsByView(desk, all)
    ensures CountsByView(desk, all)[v] == SelectTickets(desk, all, Query(v, "", None, None, sort, page)).total
  {
    var q := Query(v, "", None, None, sort, page);
    PagesAreTheSelection(desk, all, q);
    forall t ensures Selected(desk, q, t) <==> InView(desk, v, t) { EmptySearchMatches(t); }
    FilterSame(all, SelectedFilter(desk, q), ViewFilter(desk, v));
    SortIsPermutation(Compare(desk, sort), Filter(all, SelectedFilter(desk, q)));
    EveryViewIsListed(v);
    CountsAreFilters(desk, all, VIEW_IDS, v);
  }

  lemma EveryViewIsListed(v: ViewId)
    ensures v in VIEW_IDS
  {
  }

  lemma {:induction false} CountsAreFilters(desk: Desk, all: seq<Ticket>, views: seq<ViewId>, v: ViewId)
    ensures v in CountsFrom(desk, all, views) <==> v in views
    ensures v in views ==> CountsFrom(desk, all, views)[v] == |Filter(all, ViewFilter(desk, v))|
  {
    if views != [] { CountsAreFilters(desk, all, views[..|views| - 1], v); }
  }
}

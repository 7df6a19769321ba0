/** The consumer that classifies new tickets off the bus, under at-least-once delivery. */
module Consumer {
  import opened Options
  import opened Triage
  import opened TriageSafety
  import opened TriageStore
  import Bus
  import TriageRace

  /** The ids a ticket.created event carries; 0 is the nil id. */
  datatype Payload = Payload(org: nat, ticket: nat)

  /** What arrives: the struct, a pointer to it, an envelope whose data may not parse, or some other event. */
  datatype Event = Typed(payload: Payload) | Pointer(payload: Payload)
      | Enveloped(isTicketCreated: bool, data: Option<Payload>) | Foreign

  /** The classifier, answering the same input the same way each time. */
  type Classifier = (string, string) -> Option<Prediction>

  /** decodeTicketCreated: only an envelope is checked for nil ids. */
  function Decode(e: Event): Option<Payload> {
    match e
    case Typed(p) => Some(p)
    case Pointer(p) => Some(p)
    case Enveloped(created, data) =>
      if !created || data.None? || data.value.ticket == 0 || data.value.org == 0 then None else data
    case Foreign => None
  }

  /** The consumer's business: the event itself, a pointer to it, or an envelope of its type that parses to ids that are
      not nil. */
  lemma DecodesExactly(e: Event, p: Payload)
    ensures Decode(e) == Some(p) <==>
      e == Typed(p) || e == Pointer(p) || (e == Enveloped(true, Some(p)) && p.ticket != 0 && p.org != 0)
  {
  }

  /** The first delivery to a ticket puts the classifier's answer about its subject and first message on record. */
  lemma FirstDeliveryAnalyzes(s: State, e: Event, p: Payload, classify: Classifier)
    requires Valid(s) && Decode(e) == Some(p) && TicketIn(s, p.org, p.ticket) && AnalysesOf(s, p.ticket) == []
    ensures s.tickets[p.ticket].messages != []
    ensures var t := s.tickets[p.ticket];
      var said, recorded := classify(t.subject, t.messages[0]), AnalysesOf(Handle(s, e, classify), p.ticket);
      if said.Some? && said.value.priority.Known? && said.value.category.Known? && Storable(said.value)
      then |recorded| == 1 && Known(recorded[0].priority) == said.value.priority &&
        Known(recorded[0].category) == said.value.category
      else recorded == [] && Handle(s, e, classify) == s
  {
    var t := s.tickets[p.ticket];
    assert TicketGood(true, s.depts, s.customers, t, AnalysesOf(s, p.ticket));
    assert t.org in s.orgs;
    AnalysisForMeans(s, p.org, classify(t.subject, t.messages[0]));
  }

  predicate HasAnalysis(s: State, org: nat, t: nat) { TicketIn(s, org, t) && AnalysesOf(s, t) != [] }

  function Ask(classify: Classifier, t: Ticket): Option<Prediction> { classify(ClassifyInput(t).0, ClassifyInput(t).1) }

  ghost function HandlePayload(s: State, p: Payload, classify: Classifier): State {
    if HasAnalysis(s, p.org, p.ticket) || !TicketIn(s, p.org, p.ticket) then s
    else Analyze(s, p.org, p.ticket, Ask(classify, s.tickets[p.ticket])).0
  }

  /** handle: errors are logged and swallowed. */
  ghost function Handle(s: State, e: Event, classify: Classifier): State {
    if Decode(e).None? then s else HandlePayload(s, Decode(e).value, classify)
  }

  ghost function HandleAll(s: State, es: seq<Event>, classify: Classifier): State
    decreases |es|
  {
    if es == [] then s else HandleAll(Handle(s, es[0], classify), es[1..], classify)
  }

  class TicketConsumer {
    const store: Store

    constructor (store: Store)
      ensures this.store == store
    {
      this.store := store;
    }

    method HandleEvent(e: Event, classify: Classifier)
      requires Valid(store.Abs())
      modifies store`tickets, store`analyses
      ensures store.Abs() == Handle(old(store.Abs()), e, classify) && Valid(store.Abs())
    {
      HandleKeeps(store.Abs(), e, classify);
      var payload := Decode(e);
      if payload.None? { return; }
      var org, t := payload.value.org, payload.value.ticket;
      if t !in store.tickets || store.tickets[t].org != org { return; }
      if t in store.analyses && store.analyses[t] != [] { return; }
      var _ := store.Analyze(org, t, Ask(classify, store.tickets[t]), false);
    }
  }

  lemma HandleKeeps(s: State, e: Event, classify: Classifier)
    requires Valid(s)
    ensures Valid(Handle(s, e, classify))
  {
    if Decode(e).Some? {
      var p := Decode(e).value;
      if TicketIn(s, p.org, p.ticket) { AnalyzeKeeps(true, s, p.org, p.ticket, Ask(classify, s.tickets[p.ticket])); }
    }
  }

  // ----------------------------------------------------------- idempotence

  /** Handling this payload would change nothing. */
  ghost predicate Settled(s: State, p: Payload, classify: Classifier) {
    TicketIn(s, p.org, p.ticket) ==>
      AnalysesOf(s, p.ticket) != [] || AnalysisFor(s, p.org, Ask(classify, s.tickets[p.ticket])).None?
  }

  lemma SettledIsQuiet(s: State, p: Payload, classify: Classifier)
    ensures Settled(s, p, classify) <==> HandlePayload(s, p, classify) == s
  {
  }

  /** What handling leaves alone: departments, and of every ticket all that the classifier is shown. */
  ghost predicate SameQuestions(s: State, s': State) {
    && s'.depts == s.depts && s'.orgs == s.orgs && s'.threshold == s.threshold && s'.tickets.Keys == s.tickets.Keys
    && forall t :: t in s.tickets ==> TriageRace.SameQuestion(s.tickets[t], s'.tickets[t])
  }

  lemma HandleAsksTheSame(s: State, p: Payload, classify: Classifier)
    ensures SameQuestions(s, HandlePayload(s, p, classify))
    ensures forall t :: AnalysesOf(s, t) <= AnalysesOf(HandlePayload(s, p, classify), t)
  {
  }

  lemma HandleSettles(s: State, p: Payload, classify: Classifier)
    requires Valid(s)
    ensures Settled(HandlePayload(s, p, classify), p, classify)
  {
  }

  /** Nothing else that is handled unsettles it. */
  lemma SettledStays(s: State, p: Payload, q: Payload, classify: Classifier)
    requires Valid(s) && Settled(s, p, classify)
    ensures Settled(HandlePayload(s, q, classify), p, classify)
  {
    var s' := HandlePayload(s, q, classify);
    HandleAsksTheSame(s, q, classify);
    if TicketIn(s', p.org, p.ticket) {
      if AnalysesOf(s, p.ticket) == [] {
        SameDeptsSameAnalysis(s, s', p.org, Ask(classify, s.tickets[p.ticket]));
      } else {
        assert AnalysesOf(s, p.ticket) <= AnalysesOf(s', p.ticket);
      }
    }
  }

  /** The first delivery of each ticket's event; events that are none of the consumer's business are dropped. */
  function FirstOccurrences(es: seq<Event>, seen: set<Payload>): (r: seq<Event>)
    ensures forall e :: e in r ==> e in es && Decode(e).Some? && Decode(e).value !in seen
  {
    if es == [] then []
    else if Decode(es[0]).None? || Decode(es[0]).value in seen then FirstOccurrences(es[1..], seen)
    else [es[0]] + FirstOccurrences(es[1..], seen + {Decode(es[0]).value})
  }

  ghost predicate AllSettled(s: State, seen: set<Payload>, classify: Classifier) {
    forall p :: p in seen ==> Settled(s, p, classify)
  }

  /** Event e brings a payload that is neither in `seen` nor in the events before it. */
  predicate IsNew(before: seq<Event>, seen: set<Payload>, e: Event) {
    Decode(e).Some? && Decode(e).value !in seen && forall d :: d in before ==> Decode(d) != Decode(e)
  }

  function SeenWith(e: Event, seen: set<Payload>): set<Payload> {
    if Decode(e).Some? then seen + {Decode(e).value} else seen
  }

  lemma NewBehind(first: Event, rest: seq<Event>, seen: set<Payload>, e: Event)
    ensures IsNew([first] + rest, seen, e) <==> IsNew(rest, SeenWith(first, seen), e)
  {
  }

  lemma OneMoreInFront(first: Event, rest: seq<Event>, seen: set<Payload>)
    ensures FirstOccurrences([first] + rest, seen) ==
      (if IsNew([], seen, first) then [first] else []) + FirstOccurrences(rest, SeenWith(first, seen))
  {
    if Decode(first).Some? && Decode(first).value in seen { assert seen + {Decode(first).value} == seen; }
  }

  lemma {:induction false} FirstOccurrencesOneMore(es: seq<Event>, seen: set<Payload>, e: Event)
    ensures FirstOccurrences(es + [e], seen) == FirstOccurrences(es, seen) + if IsNew(es, seen, e) then [e] else []
    decreases |es|
  {
    if es == [] {
      OneMoreInFront(e, [], seen);
      assert es + [e] == [e] + [];
    } else {
      var rest := es[1..];
      FirstOccurrencesOneMore(rest, SeenWith(es[0], seen), e);
      OneMoreInFront(es[0], rest, seen);
      OneMoreInFront(es[0], rest + [e], seen);
      assert es + [e] == [es[0]] + (rest + [e]) && es == [es[0]] + rest;
      NewBehind(es[0], rest, seen, e);
    }
  }

  /** The events of es at these positions, in order. */
  ghost predicate PickedAt(es: seq<Event>, at: seq<nat>, r: seq<Event>) {
    && |r| == |at| && (forall k :: 0 <= k < |at| ==> at[k] < |es| && r[k] == es[at[k]])
    && (forall j, k :: 0 <= j < k < |at| ==> at[j] < at[k])
  }

  ghost predicate NewPositions(es: seq<Event>, seen: set<Payload>, at: seq<nat>) {
    forall i: nat :: i in at <==> i < |es| && IsNew(es[..i], seen, es[i])
  }

  lemma PickedOneMore(es: seq<Event>, e: Event, at: seq<nat>, r: seq<Event>)
    requires PickedAt(es, at, r)
    ensures PickedAt(es + [e], at, r) && PickedAt(es + [e], at + [|es|], r + [e])
  {
  }

  lemma PositionsOneMore(es: seq<Event>, seen: set<Payload>, e: Event, at: seq<nat>)
    requires NewPositions(es, seen, at)
    ensures NewPositions(es + [e], seen, if IsNew(es, seen, e) then at + [|es|] else at)
  {
    forall i: nat | i <= |es| ensures (es + [e])[..i] == es[..i] { }
    assert es[..|es|] == es;
  }

  lemma PickedNext(es: seq<Event>, seen: set<Payload>, e: Event, at: seq<nat>)
    requires PickedAt(es, at, FirstOccurrences(es, seen)) && NewPositions(es, seen, at)
    ensures var at' := if IsNew(es, seen, e) then at + [|es|] else at;
      PickedAt(es + [e], at', FirstOccurrences(es + [e], seen)) && NewPositions(es + [e], seen, at')
  {
    var r, r' := FirstOccurrences(es, seen), FirstOccurrences(es + [e], seen);
    FirstOccurrencesOneMore(es, seen, e);
    assert r' == if IsNew(es, seen, e) then r + [e] else r;
    PositionsOneMore(es, seen, e, at);
    PickedOneMore(es, e, at, r);
  }

  /** What FirstOccurrences keeps: the events at exactly the positions that bring a new payload, in order. */
  lemma {:induction false} FirstOccurrencesAre(es: seq<Event>, seen: set<Payload>) returns (at: seq<nat>)
    ensures PickedAt(es, at, FirstOccurrences(es, seen)) && NewPositions(es, seen, at)
    decreases |es|
  {
    at := [];
    if es != [] {
      var init, e := es[..|es| - 1], es[|es| - 1];
      at := FirstOccurrencesAre(init, seen);
      PickedNext(init, seen, e, at);
      assert es == init + [e];
      at := if IsNew(init, seen, e) then at + [|init|] else at;
    }
  }

  /** Main result: any delivery sequence with duplicates, in whatever shapes, ends where handling only the first
      occurrences does. */
  lemma {:induction false} DuplicatesChangeNothing(s: State, es: seq<Event>, seen: set<Payload>, classify: Classifier)
    requires Valid(s) && AllSettled(s, seen, classify)
    ensures HandleAll(s, es, classify) == HandleAll(s, FirstOccurrences(es, seen), classify)
    decreases |es|
  {
    if es != [] {
      if Decode(es[0]).None? {
        DuplicatesChangeNothing(s, es[1..], seen, classify);
      } else {
        var p := Decode(es[0]).value;
        if p in seen {
          SettledIsQuiet(s, p, classify);
          DuplicatesChangeNothing(s, es[1..], seen, classify);
        } else {
          FirstOfItsKind(s, es[0], seen, classify);
          DuplicatesChangeNothing(Handle(s, es[0], classify), es[1..], seen + {p}, classify);
          HandleHead(s, es[0], FirstOccurrences(es[1..], seen + {p}), classify);
        }
      }
    }
  }

  lemma FirstOfItsKind(s: State, e: Event, seen: set<Payload>, classify: Classifier)
    requires Valid(s) && AllSettled(s, seen, classify) && Decode(e).Some?
    ensures Valid(Handle(s, e, classify)) && AllSettled(Handle(s, e, classify), seen + {Decode(e).value}, classify)
  {
    var p := Decode(e).value;
    HandleKeeps(s, e, classify);
    HandleSettles(s, p, classify);
    forall q | q in seen ensures Settled(Handle(s, e, classify), q, classify) { SettledStays(s, q, p, classify); }
  }

  lemma HandleHead(s: State, e: Event, rest: seq<Event>, classify: Classifier)
    ensures HandleAll(s, [e] + rest, classify) == HandleAll(Handle(s, e, classify), rest, classify)
  {
  }

  lemma HandleAddsAtMostOne(s: State, e: Event, t: nat, classify: Classifier)
    ensures AnalysesOf(s, t) != [] ==> AnalysesOf(Handle(s, e, classify), t) == AnalysesOf(s, t)
    ensures |AnalysesOf(Handle(s, e, classify), t)| <= |AnalysesOf(s, t)| + 1
  {
  }

  /** The consumer adds at most one analysis per ticket, however often its event is delivered, and none to a ticket that
      has one. */
  lemma {:induction false} AtMostOneAnalysisEach(s: State, es: seq<Event>, t: nat, classify: Classifier)
    ensures AnalysesOf(s, t) != [] ==> AnalysesOf(HandleAll(s, es, classify), t) == AnalysesOf(s, t)
    ensures AnalysesOf(s, t) == [] ==> |AnalysesOf(HandleAll(s, es, classify), t)| <= 1
    decreases |es|
  {
    if es != [] {
      HandleAddsAtMostOne(s, es[0], t, classify);
      AtMostOneAnalysisEach(Handle(s, es[0], classify), es[1..], t, classify);
    }
  }

  // --------------------------------------------- among everything else that happens

  /** A delivery to the consumer, or any other use case. */
  datatype Happening = Deliver(event: Event) | Elsewhere(op: Op)

  ghost predicate MayHappen(s: State, h: Happening) { h.Elsewhere? ==> Enabled(s, h.op) }

  ghost function After(s: State, h: Happening, classify: Classifier): State {
    match h
    case Deliver(e) => Handle(s, e, classify)
    case Elsewhere(op) => Step(s, op)
  }

  ghost predicate AllMayHappen(s: State, hs: seq<Happening>, classify: Classifier)
    decreases |hs|
  {
    hs != [] ==> MayHappen(s, hs[0]) && AllMayHappen(After(s, hs[0], classify), hs[1..], classify)
  }

  ghost function AfterAll(s: State, hs: seq<Happening>, classify: Classifier): State
    decreases |hs|
  {
    if hs == [] then s else AfterAll(After(s, hs[0], classify), hs[1..], classify)
  }

  lemma AfterKeeps(s: State, h: Happening, classify: Classifier)
    requires Valid(s) && MayHappen(s, h)
    ensures Valid(After(s, h, classify))
  {
    match h
    case Deliver(e) => HandleKeeps(s, e, classify);
    case Elsewhere(op) => StepKeeps(true, s, op);
  }

  /** How many analyses of ticket t the deliveries of a run add. */
  ghost function Added(s: State, hs: seq<Happening>, t: nat, classify: Classifier): int
    decreases |hs|
  {
    if hs == [] then 0
    else
      var s' := After(s, hs[0], classify);
      (if hs[0].Deliver? then |AnalysesOf(s', t)| - |AnalysesOf(s, t)| else 0) + Added(s', hs[1..], t, classify)
  }

  /** Main result: whatever else is done in between, re-analyses, corrections and deletions included, the deliveries add
      at most one analysis to a ticket, and none to one that has an analysis already. */
  lemma {:induction false} AddedAtMostOnce(s: State, hs: seq<Happening>, t: nat, classify: Classifier)
    requires Valid(s) && AllMayHappen(s, hs, classify)
    ensures 0 <= Added(s, hs, t, classify) <= if AnalysesOf(s, t) == [] then 1 else 0
    decreases |hs|
  {
    if hs != [] {
      var s' := After(s, hs[0], classify);
      AfterKeeps(s, hs[0], classify);
      match hs[0] {
        case Deliver(e) =>
          HandleAddsAtMostOne(s, e, t, classify);
          HandleLosesNothing(s, e, t, classify);
        case Elsewhere(op) => StepGrows(s, op, t);
      }
      AddedAtMostOnce(s', hs[1..], t, classify);
    }
  }

  lemma HandleLosesNothing(s: State, e: Event, t: nat, classify: Classifier)
    ensures AnalysesOf(s, t) <= AnalysesOf(Handle(s, e, classify), t)
  {
    if Decode(e).Some? { HandleAsksTheSame(s, Decode(e).value, classify); }
  }

  /** The payload's ticket is there, and another delivery would change nothing. */
  ghost predicate SettledIn(s: State, p: Payload, classify: Classifier) {
    TicketIn(s, p.org, p.ticket) && Settled(s, p, classify)
  }

  lemma SettledThroughout(s: State, op: Op, p: Payload, classify: Classifier)
    requires Valid(s) && Enabled(s, op) && SettledIn(s, p, classify)
    ensures SettledIn(Step(s, op), p, classify)
  {
    var s' := Step(s, op);
    StepKeeps(true, s, op);
    StepGrows(s, op, p.ticket);
    TriageRace.OpSpares(s, op);
    assert TriageRace.SameQuestion(s.tickets[p.ticket], s'.tickets[p.ticket]);
    AnalysisForMeans(s, p.org, Ask(classify, s.tickets[p.ticket]));
    AnalysisForMeans(s', p.org, Ask(classify, s.tickets[p.ticket]));
  }

  lemma SettledAfter(s: State, h: Happening, p: Payload, classify: Classifier)
    requires Valid(s) && MayHappen(s, h) && SettledIn(s, p, classify)
    ensures SettledIn(After(s, h, classify), p, classify)
  {
    match h
    case Elsewhere(op) => SettledThroughout(s, op, p, classify);
    case Deliver(e) =>
      if Decode(e).Some? {
        SettledStays(s, p, Decode(e).value, classify);
        HandleAsksTheSame(s, Decode(e).value, classify);
      }
  }

  ghost predicate AllSettledIn(s: State, seen: set<Payload>, classify: Classifier) {
    forall p :: p in seen ==> SettledIn(s, p, classify)
  }

  /** The payloads whose first delivery, to a ticket that was there, is behind us. */
  ghost function SeenAfter(s: State, h: Happening, seen: set<Payload>): set<Payload> {
    if h.Elsewhere? || Decode(h.event).None? then seen
    else
      var p := Decode(h.event).value;
      if TicketIn(s, p.org, p.ticket) then seen + {p} else seen
  }

  predicate Again(h: Happening, seen: set<Payload>) {
    h.Deliver? && (Decode(h.event).None? || Decode(h.event).value in seen)
  }

  /** The same run without the deliveries of what had been delivered before. */
  ghost function WithoutRedeliveries(s: State, hs: seq<Happening>, seen: set<Payload>,
      classify: Classifier): seq<Happening>
    decreases |hs|
  {
    if hs == [] then []
    else
      var rest := WithoutRedeliveries(After(s, hs[0], classify), hs[1..], SeenAfter(s, hs[0], seen), classify);
      if Again(hs[0], seen) then rest else [hs[0]] + rest
  }

  lemma SeenIsSettled(s: State, h: Happening, seen: set<Payload>, classify: Classifier)
    requires Valid(s) && MayHappen(s, h) && AllSettledIn(s, seen, classify)
    ensures AllSettledIn(After(s, h, classify), SeenAfter(s, h, seen), classify)
  {
    forall p | p in SeenAfter(s, h, seen) ensures SettledIn(After(s, h, classify), p, classify) {
      if p in seen {
        SettledAfter(s, h, p, classify);
      } else {
        HandleSettles(s, p, classify);
        HandleAsksTheSame(s, p, classify);
      }
    }
  }

  lemma AgainIsQuiet(s: State, h: Happening, seen: set<Payload>, classify: Classifier)
    requires AllSettledIn(s, seen, classify) && Again(h, seen)
    ensures After(s, h, classify) == s
  {
    if Decode(h.event).Some? { SettledIsQuiet(s, Decode(h.event).value, classify); }
  }

  lemma AfterHead(s: State, h: Happening, rest: seq<Happening>, classify: Classifier)
    ensures AfterAll(s, [h] + rest, classify) == AfterAll(After(s, h, classify), rest, classify)
  {
  }

  /** Main result: redeliveries make no difference anywhere in a run of any use cases. Once a ticket's event has been
      delivered with the ticket there, delivering it again, at any later time and in any shape, changes nothing. */
  lemma {:induction false} RedeliveriesChangeNothing(s: State, hs: seq<Happening>, seen: set<Payload>,
      classify: Classifier)
    requires Valid(s) && AllMayHappen(s, hs, classify) && AllSettledIn(s, seen, classify)
    ensures AfterAll(s, hs, classify) == AfterAll(s, WithoutRedeliveries(s, hs, seen, classify), classify)
    decreases |hs|
  {
    if hs != [] {
      var s', seen' := After(s, hs[0], classify), SeenAfter(s, hs[0], seen);
      AfterKeeps(s, hs[0], classify);
      SeenIsSettled(s, hs[0], seen, classify);
      RedeliveriesChangeNothing(s', hs[1..], seen', classify);
      if Again(hs[0], seen) {
        AgainIsQuiet(s, hs[0], seen, classify);
      } else {
        AfterHead(s, hs[0], WithoutRedeliveries(s', hs[1..], seen', classify), classify);
      }
    }
  }

  // ------------------------------------------------------ behind the bus

  /** The events of the calls to one handler, in order. */
  function EventsOf(calls: seq<Bus.Call<Event>>, h: nat): seq<Event> {
    if calls == [] then []
    else EventsOf(calls[..|calls| - 1], h) + if calls[|calls| - 1].handler == h then [calls[|calls| - 1].event] else []
  }

  function EventsOn(envs: seq<Bus.Envelope<Event>>, topic: string): seq<Event> {
    if envs == [] then []
    else EventsOn(envs[..|envs| - 1], topic) + if envs[|envs| - 1].topic == topic then [envs[|envs| - 1].event] else []
  }

  /** The handler subscribed once, to one topic. */
  ghost predicate SubscribedOnce(handlers: map<string, seq<nat>>, topic: string, h: nat) {
    Bus.HandlersOf(handlers, topic) == [h] && forall other :: other != topic ==> h !in Bus.HandlersOf(handlers, other)
  }

  lemma {:induction false} EventsOfMore(calls: seq<Bus.Call<Event>>, more: seq<Bus.Call<Event>>, h: nat)
    ensures EventsOf(calls + more, h) == EventsOf(calls, h) + EventsOf(more, h)
  {
    if more == [] {
      assert calls + more == calls && EventsOf(calls, h) + [] == EventsOf(calls, h);
    } else {
      var init, last := more[..|more| - 1], more[|more| - 1];
      EventsOfMore(calls, init, h);
      assert (calls + more)[..|calls + more| - 1] == calls + init;
      assert (calls + more)[|calls + more| - 1] == last;
    }
  }

  lemma {:induction false} NotCalled(calls: seq<Bus.Call<Event>>, h: nat)
    requires forall k :: 0 <= k < |calls| ==> calls[k].handler != h
    ensures EventsOf(calls, h) == []
  {
    if calls != [] { NotCalled(calls[..|calls| - 1], h); }
  }

  /** What a handler is called with are the dispatched events of its topic. */
  lemma {:induction false} CalledWithItsTopic(handlers: map<string, seq<nat>>, envs: seq<Bus.Envelope<Event>>,
      topic: string, h: nat)
    requires SubscribedOnce(handlers, topic, h)
    ensures EventsOf(Bus.AllCalls(handlers, envs), h) == EventsOn(envs, topic)
  {
    if envs != [] {
      var init, last := envs[..|envs| - 1], envs[|envs| - 1];
      var more := Bus.CallsFor(Bus.HandlersOf(handlers, last.topic), last.event);
      CalledWithItsTopic(handlers, init, topic, h);
      EventsOfMore(Bus.AllCalls(handlers, init), more, h);
      if last.topic == topic {
        assert more == [Bus.Call(h, last.event)];
        assert more[..0] == [];
        assert EventsOf(more, h) == [last.event];
      } else {
        NotCalled(more, h);
      }
    }
  }

  /** From publisher to ticket: once the bus has been closed and drained, the tickets are as if the consumer had been
      handed the first accepted event of each ticket, once, in the order they were accepted. */
  lemma AcceptedEventsDecide(b: Bus.State<Event>, ops: seq<Bus.Op<Event>>, topic: string, h: nat, s: State,
      classify: Classifier)
    requires Bus.Good(b) && Bus.Lawful(b, ops) && b.dispatched == [] && b.calls == []
    requires SubscribedOnce(b.handlers, topic, h)
    requires forall k :: 0 <= k < |ops| ==> !ops[k].Subscribe?
    requires Bus.Run(b, ops).queue == [] && Valid(s)
    ensures var end := Bus.Run(b, ops);
      HandleAll(s, EventsOf(end.calls, h), classify) ==
        HandleAll(s, FirstOccurrences(EventsOn(end.accepted, topic), {}), classify)
  {
    var end := Bus.Run(b, ops);
    Bus.FifoAlways(b, ops);
    assert end.accepted == end.dispatched;
    Bus.CallsAreDispatched(b, ops);
    CalledWithItsTopic(b.handlers, end.dispatched, topic, h);
    DuplicatesChangeNothing(s, EventsOn(end.accepted, topic), {}, classify);
  }

  // --------------------------------------------------------- what is not retried

  /** If the analysis was recorded and the ticket update then failed, no redelivery repairs it: the ticket keeps the
      priority and department it had, whatever the prediction said. */
  lemma HalfAnalyzedIsNeverRetried(s: State, s': State, p: Payload, es: seq<Event>, classify: Classifier)
    requires TicketIn(s, p.org, p.ticket) && HalfAnalyzed(s, s', p.org, p.ticket, Ask(classify, s.tickets[p.ticket]))
    requires forall e :: e in es && Decode(e).Some? ==> Decode(e).value == p
    ensures HandleAll(s', es, classify) == s' && s'.tickets == s.tickets
    decreases |es|
  {
  }
}

/** The in-process event bus: a bounded queue between publishers and one dispatch loop. */
module Bus {
  import opened Sequences

  datatype Envelope<E> = Envelope(topic: string, event: E)

  /** A handler call that was made. Handlers are known by number. */
  datatype Call<E> = Call(handler: nat, event: E)

  /** `accepted` and `dispatched` record what Publish took in and what the loop took out. */
  datatype State<E> = State(cap: nat, queue: seq<Envelope<E>>, handlers: map<string, seq<nat>>, closed: bool,
                            accepted: seq<Envelope<E>>, dispatched: seq<Envelope<E>>, calls: seq<Call<E>>)

  function Capacity(bufferSize: int): nat { if bufferSize <= 0 then 256 else bufferSize }

  function NewBus<E>(bufferSize: int): State<E> { State(Capacity(bufferSize), [], map[], false, [], [], []) }

  function HandlersOf(handlers: map<string, seq<nat>>, topic: string): seq<nat>
  {
    if topic in handlers then handlers[topic] else []
  }

  /** One call per handler, in the order they subscribed. */
  function CallsFor<E>(hs: seq<nat>, e: E): (calls: seq<Call<E>>)
    ensures |calls| == |hs| && forall k :: 0 <= k < |hs| ==> calls[k] == Call(hs[k], e)
  {
    seq(|hs|, k requires 0 <= k < |hs| => Call(hs[k], e))
  }

  // ------------------------------------------------------------------ steps

  datatype Op<E> = Subscribe(topic: string, handler: nat) | Publish(env: Envelope<E>) | Dispatch | CloseChannel

  /** Publishing on a closed channel, or closing it twice, would panic. */
  predicate Enabled<E>(s: State<E>, op: Op<E>) {
    match op
    case Subscribe(_, _) => true
    case Publish(_) => !s.closed
    case Dispatch => s.queue != []
    case CloseChannel => !s.closed
  }

  /** A publisher that finds the buffer full when its patience ends is told so, and the event is dropped. */
  function Accepts<E>(s: State<E>): bool { |s.queue| < s.cap }

  function DispatchOne<E>(s: State<E>): State<E>
    requires s.queue != []
  {
    var env := s.queue[0];
    s.(queue := s.queue[1..], dispatched := s.dispatched + [env],
      calls := s.calls + CallsFor(HandlersOf(s.handlers, env.topic), env.event))
  }

  function Step<E>(s: State<E>, op: Op<E>): State<E>
    requires Enabled(s, op)
  {
    match op
    case Subscribe(topic, h) => s.(handlers := s.handlers[topic := HandlersOf(s.handlers, topic) + [h]])
    case Publish(env) => if Accepts(s) then s.(queue := s.queue + [env], accepted := s.accepted + [env]) else s
    case Dispatch => DispatchOne(s)
    case CloseChannel => s.(closed := true)
  }

  ghost predicate Lawful<E>(s: State<E>, ops: seq<Op<E>>)
    decreases |ops|
  {
    ops != [] ==> Enabled(s, ops[0]) && Lawful(Step(s, ops[0]), ops[1..])
  }

  ghost function Run<E>(s: State<E>, ops: seq<Op<E>>): State<E>
    requires Lawful(s, ops)
    decreases |ops|
  {
    if ops == [] then s else Run(Step(s, ops[0]), ops[1..])
  }

  /** Everything accepted was dispatched already or still waits, in the order it was accepted. */
  ghost predicate Good<E>(s: State<E>) {
    s.accepted == s.dispatched + s.queue && |s.queue| <= s.cap
  }

  lemma StepKeeps<E>(s: State<E>, op: Op<E>)
    requires Good(s) && Enabled(s, op)
    ensures Good(Step(s, op))
  {
  }

  /** After any run of publishers, subscribers and the loop: first in, first out, each event at most once, none
      invented, and never more than the buffer holds. */
  lemma {:induction false} FifoAlways<E>(s: State<E>, ops: seq<Op<E>>)
    requires Good(s) && Lawful(s, ops)
    ensures Good(Run(s, ops))
    decreases |ops|
  {
    if ops != [] {
      StepKeeps(s, ops[0]);
      FifoAlways(Step(s, ops[0]), ops[1..]);
    }
  }

  function AllCalls<E>(handlers: map<string, seq<nat>>, envs: seq<Envelope<E>>): seq<Call<E>> {
    if envs == [] then []
    else
      AllCalls(handlers, envs[..|envs| - 1]) +
      CallsFor(HandlersOf(handlers, envs[|envs| - 1].topic), envs[|envs| - 1].event)
  }

  lemma CallsOneMore<E>(handlers: map<string, seq<nat>>, envs: seq<Envelope<E>>, env: Envelope<E>)
    ensures AllCalls(handlers, envs + [env]) ==
      AllCalls(handlers, envs) + CallsFor(HandlersOf(handlers, env.topic), env.event)
  {
  }

  /** When everybody subscribed before the first event, the handlers saw exactly the dispatched events, in order. */
  lemma {:induction false} CallsAreDispatched<E>(s: State<E>, ops: seq<Op<E>>)
    requires Lawful(s, ops) && s.calls == AllCalls(s.handlers, s.dispatched)
    requires forall k :: 0 <= k < |ops| ==> !ops[k].Subscribe?
    ensures Run(s, ops).handlers == s.handlers && Run(s, ops).calls == AllCalls(s.handlers, Run(s, ops).dispatched)
    decreases |ops|
  {
    if ops != [] {
      if ops[0].Dispatch? { CallsOneMore(s.handlers, s.dispatched, s.queue[0]); }
      CallsAreDispatched(Step(s, ops[0]), ops[1..]);
    }
  }

  /** One more round of the loop, seen from where the rounds began. */
  lemma OneMoreRound<E>(s: State<E>, before: seq<Envelope<E>>, calls: seq<Call<E>>)
    requires s.queue != [] && before <= s.dispatched
    requires s.calls == calls + AllCalls(s.handlers, s.dispatched[|before|..])
    ensures var t := DispatchOne(s);
      before <= t.dispatched && t.calls == calls + AllCalls(s.handlers, t.dispatched[|before|..])
  {
    var t, since := DispatchOne(s), s.dispatched[|before|..];
    assert t.dispatched[|before|..] == since + [s.queue[0]];
    CallsOneMore(s.handlers, since, s.queue[0]);
    Associates(calls, AllCalls(s.handlers, since),
      CallsFor(HandlersOf(s.handlers, s.queue[0].topic), s.queue[0].event));
  }

  /** The handlers a run subscribes to a topic, in order. */
  function SubscribedTo<E>(ops: seq<Op<E>>, topic: string): seq<nat> {
    if ops == [] then []
    else (if ops[0].Subscribe? && ops[0].topic == topic then [ops[0].handler] else []) + SubscribedTo(ops[1..], topic)
  }

  lemma {:induction false} HandlersAreSubscribers<E>(s: State<E>, ops: seq<Op<E>>, topic: string)
    requires Lawful(s, ops)
    ensures HandlersOf(Run(s, ops).handlers, topic) == HandlersOf(s.handlers, topic) + SubscribedTo(ops, topic)
    decreases |ops|
  {
    if ops != [] {
      var head := if ops[0].Subscribe? && ops[0].topic == topic then [ops[0].handler] else [];
      HandlersAreSubscribers(Step(s, ops[0]), ops[1..], topic);
      assert HandlersOf(Step(s, ops[0]).handlers, topic) == HandlersOf(s.handlers, topic) + head;
      Associates(HandlersOf(s.handlers, topic), head, SubscribedTo(ops[1..], topic));
    }
  }

  /** Whenever the loop takes an event, each handler that subscribed to its topic so far is called with it, once for
      each time it subscribed, in the order of the subscriptions; no other handler is. */
  lemma SubscribersHear<E>(bufferSize: int, ops: seq<Op<E>>)
    requires Lawful(NewBus(bufferSize), ops) && Enabled(Run(NewBus(bufferSize), ops), Op<E>.Dispatch)
    ensures var s := Run(NewBus(bufferSize), ops);
      Adds(s.calls, Step(s, Op<E>.Dispatch).calls, SubscribedTo(ops, s.queue[0].topic), s.queue[0].event)
  {
    var b: State<E> := NewBus(bufferSize);
    var s := Run(b, ops);
    HandlersAreSubscribers(b, ops, s.queue[0].topic);
    RoundCalls(s, SubscribedTo(ops, s.queue[0].topic));
  }

  /** After the calls made before, one for each of these handlers, with the event. */
  ghost predicate Adds<E>(before: seq<Call<E>>, after: seq<Call<E>>, hs: seq<nat>, event: E) {
    && before <= after
    && var added := after[|before|..];
       |added| == |hs| && forall k :: 0 <= k < |hs| ==> added[k] == Call(hs[k], event)
  }

  lemma RoundCalls<E>(s: State<E>, hs: seq<nat>)
    requires s.queue != [] && [] + hs == HandlersOf(s.handlers, s.queue[0].topic)
    ensures Adds(s.calls, DispatchOne(s).calls, hs, s.queue[0].event)
  {
    assert hs == HandlersOf(s.handlers, s.queue[0].topic);
    assert DispatchOne(s).calls[|s.calls|..] == CallsFor(hs, s.queue[0].event);
  }

  // ---------------------------------------------------------------- in place

  class InProcessBus<E> {
    const cap: nat
    var queue: seq<Envelope<E>>
    var handlers: map<string, seq<nat>>
    var closed: bool
    var calls: seq<Call<E>>
    ghost var accepted: seq<Envelope<E>>
    ghost var dispatched: seq<Envelope<E>>

    ghost function Abs(): State<E>
      reads this
    {
      State(cap, queue, handlers, closed, accepted, dispatched, calls)
    }

    constructor (bufferSize: int)
      ensures Abs() == NewBus(bufferSize) && Good(Abs()) && cap == if bufferSize > 0 then bufferSize else 256
    {
      cap := if bufferSize <= 0 then 256 else bufferSize;
      queue, handlers, closed, calls := [], map[], false, [];
      accepted, dispatched := [], [];
    }

    method Subscribe(topic: string, handler: nat)
      modifies this`handlers
      ensures Abs() == Step(old(Abs()), Op.Subscribe(topic, handler))
    {
      handlers := handlers[topic := (if topic in handlers then handlers[topic] else []) + [handler]];
    }

    /** One round of the dispatch loop. */
    method DispatchNext()
      requires Good(Abs()) && queue != []
      modifies this`queue, this`calls, this`dispatched
      ensures Abs() == DispatchOne(old(Abs())) && Good(Abs())
    {
      StepKeeps(Abs(), Op<E>.Dispatch);
      var env := queue[0];
      queue, dispatched := queue[1..], dispatched + [env];
      var hs := if env.topic in handlers then handlers[env.topic] else [];
      ghost var before := calls;
      for k := 0 to |hs|
        invariant calls == before + CallsFor(hs[..k], env.event)
        modifies this`calls
      {
        calls := calls + [Call(hs[k], env.event)];
        assert CallsFor(hs[..k + 1], env.event) == CallsFor(hs[..k], env.event) + [Call(hs[k], env.event)];
      }
      assert hs[..|hs|] == hs;
    }

    /** `rounds` is how far the loop gets while a publisher that found the buffer full waits. */
    method Publish(env: Envelope<E>, rounds: nat) returns (ok: bool)
      requires Good(Abs()) && !closed && rounds <= |queue|
      modifies this`queue, this`calls, this`accepted, this`dispatched
      ensures Good(Abs())
      ensures accepted == if ok then old(accepted) + [env] else old(accepted)
      ensures ok <==> old(|queue|) < cap || rounds > 0
      ensures old(|queue|) < cap ==> dispatched == old(dispatched)
      ensures old(|queue|) >= cap ==> |dispatched| == |old(dispatched)| + rounds
      ensures old(dispatched) <= dispatched
      ensures calls == old(calls) + AllCalls(handlers, dispatched[|old(dispatched)|..])
    {
      assert dispatched[|old(dispatched)|..] == [] && calls + [] == calls;
      if |queue| < cap {
        queue, accepted := queue + [env], accepted + [env];
        return true;
      }
      for k := 0 to rounds
        invariant Good(Abs()) && accepted == old(accepted) && |queue| == old(|queue|) - k
        invariant old(dispatched) <= dispatched && |dispatched| == |old(dispatched)| + k
        invariant calls == old(calls) + AllCalls(handlers, dispatched[|old(dispatched)|..])
      {
        OneMoreRound(Abs(), old(dispatched), old(calls));
        DispatchNext();
      }
      if |queue| < cap {
        queue, accepted := queue + [env], accepted + [env];
        return true;
      }
      return false;
    }

    /** close(ch), then wait for the loop to drain it. */
    method Close()
      requires Good(Abs()) && !closed
      modifies this`queue, this`calls, this`dispatched, this`closed
      ensures closed && queue == [] && dispatched == accepted == old(accepted) && Good(Abs())
      ensures calls == old(calls) + AllCalls(handlers, old(queue))
    {
      closed := true;
      assert dispatched[|old(dispatched)|..] == [] && calls + [] == calls;
      while queue != []
        invariant closed && Good(Abs()) && accepted == old(accepted) && old(dispatched) <= dispatched
        invariant calls == old(calls) + AllCalls(handlers, dispatched[|old(dispatched)|..])
        decreases |queue|
      {
        OneMoreRound(Abs(), old(dispatched), old(calls));
        DispatchNext();
      }
      assert dispatched == accepted && accepted == old(dispatched) + old(queue);
      assert dispatched[|old(dispatched)|..] == old(queue);
    }
  }
}

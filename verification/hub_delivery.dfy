/** Who hears what: which clients an operation puts into a room or takes out of one, which messages a client's buffer
    gains, and what a client is subscribed to after any run. */
module HubDelivery {
  import opened Options
  import opened Text
  import opened Rooms
  import opened HubSpec
  import opened HubSafety
  import opened Sequences

  // ------------------------------------------------------------------ membership

  /** Both indexes hold precisely the pairs they held and this one. */
  ghost predicate Gained<H, C>(s: Hub<H, C>, t: Hub<H, C>, room: RoomKey, id: string) {
    && (forall r, i :: Listed(t.rooms, r, i) <==> Listed(s.rooms, r, i) || (r == room && i == id))
    && (forall r, i :: Joined(t.clients, t.peers, i, r) <==> Joined(s.clients, s.peers, i, r) || (r == room && i == id))
  }

  ghost predicate Lost<H, C>(s: Hub<H, C>, t: Hub<H, C>, room: RoomKey, id: string) {
    && (forall r, i :: Listed(t.rooms, r, i) <==> Listed(s.rooms, r, i) && !(r == room && i == id))
    && (forall r, i ::
          Joined(t.clients, t.peers, i, r) <==> Joined(s.clients, s.peers, i, r) && !(r == room && i == id))
  }

  /** The registered clients, and of each its organization, app and channel, are the same. */
  ghost predicate SameClients<H, C>(s: Hub<H, C>, t: Hub<H, C>) {
    && t.clients == s.clients && t.closed == s.closed && t.max == s.max && t.chans == s.chans
    && forall h :: h in s.peers ==> h in t.peers && t.peers[h] == s.peers[h].(rooms := t.peers[h].rooms)
  }

  lemma AddedPair<H, C>(s: Hub<H, C>, h: H, room: RoomKey)
    requires IndexesAgree(s) && AllLive(s) && h in s.peers && s.peers[h].id in s.clients
    requires s.clients[s.peers[h].id] == h
    ensures var t := AddToRoom(s, h, room); Gained(s, t, room, s.peers[h].id) && SameClients(s, t)
  {
    var t, id := AddToRoom(s, h, room), s.peers[h].id;
    forall r, i ensures Joined(t.clients, t.peers, i, r) <==>
      Joined(s.clients, s.peers, i, r) || (r == room && i == id) {
      if i in s.clients && s.clients[i] == h { assert Live(s.clients, s.peers, s.chans, i); }
    }
  }

  lemma RemovedPair<H, C>(s: Hub<H, C>, h: H, room: RoomKey)
    requires IndexesAgree(s) && AllLive(s) && h in s.peers && s.peers[h].id in s.clients
    requires s.clients[s.peers[h].id] == h
    ensures var t := RemoveFromRoom(s, h, room); Lost(s, t, room, s.peers[h].id) && SameClients(s, t)
  {
    var t, id := RemoveFromRoom(s, h, room), s.peers[h].id;
    if room in s.rooms { DropMemberPairs(s.rooms, room, id); }
    forall i, r
      ensures Joined(t.clients, t.peers, i, r) <==> Joined(s.clients, s.peers, i, r) && !(r == room && i == id)
    {
      if i in s.clients && s.clients[i] == h { assert Live(s.clients, s.peers, s.chans, i); }
    }
    forall r, i ensures Listed(t.rooms, r, i) <==> Listed(s.rooms, r, i) && !(r == room && i == id) { }
  }

  /** The room a registered client means by this channel text. */
  function RoomFor<H, C>(s: Hub<H, C>, id: string, channel: string): RoomKey
    requires Known(s) && id in s.clients
  {
    FormatKey(s.peers[s.clients[id]].org, s.peers[s.clients[id]].app, NormalChannel(channel))
  }

  ghost predicate Acceptable<H, C>(s: Hub<H, C>, id: string, channel: string) {
    id in s.clients && ValidChannel(NormalChannel(channel))
  }

  /** A subscription succeeds exactly for a registered client and a valid channel. Then the client is in the room, in
      both indexes, and nothing else has changed. */
  lemma SubscribedIsIn<H, C>(s: Hub<H, C>, id: string, channel: string)
    requires Inv(s)
    ensures var (t, ok) := Subscribe(s, id, channel);
      && Known(t) && (ok <==> Acceptable(s, id, channel)) && (!ok ==> t == s)
      && (ok ==>
        && Gained(s, t, RoomFor(s, id, channel), id) && SameClients(s, t)
        && Addressed(t, id, s.peers[s.clients[id]].org, NormalChannel(channel)))
  {
    SubscribeKnown(s, id, channel);
    if Acceptable(s, id, channel) {
      assert Live(s.clients, s.peers, s.chans, id);
      AddedPair(s, s.clients[id], RoomFor(s, id, channel));
      assert Joined(s.clients, Subscribe(s, id, channel).0.peers, id, RoomFor(s, id, channel));
    }
  }

  /** The same the other way round. */
  lemma UnsubscribedIsOut<H, C>(s: Hub<H, C>, id: string, channel: string)
    requires Inv(s)
    ensures var (t, ok) := Unsubscribe(s, id, channel);
      && Known(t) && (ok <==> Acceptable(s, id, channel)) && (!ok ==> t == s)
      && (ok ==>
        && Lost(s, t, RoomFor(s, id, channel), id) && SameClients(s, t)
        && !Addressed(t, id, s.peers[s.clients[id]].org, NormalChannel(channel)))
  {
    SubscribeKnown(s, id, channel);
    if Acceptable(s, id, channel) {
      assert Live(s.clients, s.peers, s.chans, id);
      RemovedPair(s, s.clients[id], RoomFor(s, id, channel));
      assert !Joined(s.clients, Unsubscribe(s, id, channel).0.peers, id, RoomFor(s, id, channel));
    }
  }

  lemma EnrolledPairs<H, C>(s: Hub<H, C>, h: H, c: C, ch: Chan, id: string, org: Uuid, app: Uuid)
    requires Inv(s) && h !in s.peers && id !in s.clients
    ensures var t := Enrol(s, h, c, ch, id, org, app);
      && t.rooms == s.rooms && t.clients == s.clients[id := h] && t.chans == s.chans[c := ch]
      && (forall r, i :: Joined(t.clients, t.peers, i, r) <==> Joined(s.clients, s.peers, i, r))
  {
    forall i | i in s.clients ensures s.clients[i] in s.peers { assert Live(s.clients, s.peers, s.chans, i); }
  }

  /** What an admitted registration leaves: one more client, who is in this room and no other; the rest as it was. */
  ghost predicate Admitted<H, C>(s: Hub<H, C>, t: Hub<H, C>, h: H, c: C, id: string, org: Uuid, app: Uuid,
      room: RoomKey)
  {
    && t.clients == s.clients[id := h] && Gained(s, t, room, id)
    && t.peers == s.peers[h := Client(id, org, app, c, {room}, false)]
  }

  lemma EnrolledIsIn<H, C>(s: Hub<H, C>, h: H, c: C, ch: Chan, id: string, org: Uuid, app: Uuid, room: RoomKey)
    requires Inv(s) && h !in s.peers && c !in s.chans && !ch.closed
    requires forall g :: g in s.peers ==> s.peers[g].id != id
    ensures var t := EnrolIn(s, h, c, ch, id, org, app, room);
      Admitted(s, t, h, c, id, org, app, room) && t.chans == s.chans[c := ch]
  {
    EnrolledGains(s, h, c, ch, id, org, app, room);
    EnrolledPeers(s, h, c, ch, id, org, app, room);
  }

  lemma EnrolledPeers<H, C>(s: Hub<H, C>, h: H, c: C, ch: Chan, id: string, org: Uuid, app: Uuid, room: RoomKey)
    requires h !in s.peers
    ensures var t := EnrolIn(s, h, c, ch, id, org, app, room);
      && t.clients == s.clients[id := h] && t.chans == s.chans[c := ch]
      && t.peers == s.peers[h := Client(id, org, app, c, {room}, false)]
  {
    var bare := Client(id, org, app, c, {}, false);
    assert bare.rooms + {room} == {room};
    assert s.peers[h := bare][h := bare.(rooms := {room})] == s.peers[h := bare.(rooms := {room})];
  }

  lemma EnrolledGains<H, C>(s: Hub<H, C>, h: H, c: C, ch: Chan, id: string, org: Uuid, app: Uuid, room: RoomKey)
    requires Inv(s) && h !in s.peers && c !in s.chans && !ch.closed
    requires forall g :: g in s.peers ==> s.peers[g].id != id
    ensures Gained(s, EnrolIn(s, h, c, ch, id, org, app, room), room, id)
  {
    var u := Enrol(s, h, c, ch, id, org, app);
    EnrolClients(s, h, c, ch, id, org, app);
    EnrolIndex(s, h, c, ch, id, org, app);
    EnrolledPairs(s, h, c, ch, id, org, app);
    AddedPair(u, h, room);
    GainedAfter(s, u, AddToRoom(u, h, room), room, id);
  }

  lemma GainedAfter<H, C>(s: Hub<H, C>, u: Hub<H, C>, t: Hub<H, C>, room: RoomKey, id: string)
    requires u.rooms == s.rooms && Gained(u, t, room, id)
    requires forall r, i :: Joined(u.clients, u.peers, i, r) <==> Joined(s.clients, s.peers, i, r)
    ensures Gained(s, t, room, id)
  {
  }

  /** A registration is admitted exactly if the hub is open and below its cap, and then puts the client on "events".
      Refused, it registers nobody, and at the cap the new channel is closed. */
  lemma RegisteredIsIn<H, C>(s: Hub<H, C>, h: H, c: C, cap: nat, id: string, org: Uuid, app: Uuid)
    requires Inv(s) && Enabled(s, OpRegister(h, c, cap, id, org, app))
    ensures var (t, ok) := Register(s, h, c, Chan(cap, [], false), id, org, app);
      && (ok <==> !s.closed && |s.clients| < s.max)
      && (!ok ==> t == if s.closed then s else s.(chans := s.chans[c := Chan(cap, [], true)]))
      && (ok ==> Admitted(s, t, h, c, id, org, app, FormatKey(org, app, "events")) &&
                 t.chans == s.chans[c := Chan(cap, [], false)])
  {
    var ch := Chan(cap, [], false);
    if !s.closed && |s.clients| < s.max {
      EnrolledIsIn(s, h, c, ch, id, org, app, FormatKey(org, app, "events"));
    } else {
      assert s.chans[c := ch][c := ch.(closed := true)] == s.chans[c := ch.(closed := true)];
    }
  }

  // --------------------------------------------------------------- who hears what

  /** The message is in the buffer, behind what was there; unless the buffer was full, then nothing changed. */
  ghost predicate Received(ch: Chan, ch': Chan, msg: string) {
    && ch'.cap == ch.cap && ch'.closed == ch.closed
    && ch'.queue == (if |ch.queue| < ch.cap then ch.queue + [msg] else ch.queue)
  }

  /** Precisely the channels in `to` received the message, and nothing else has changed. */
  ghost predicate Heard<H, C>(s: Hub<H, C>, t: Hub<H, C>, to: iset<C>, msg: string) {
    && t == s.(chans := t.chans) && t.chans.Keys == s.chans.Keys
    && forall c :: c in s.chans ==>
         if c in to then Received(s.chans[c], t.chans[c], msg) else t.chans[c] == s.chans[c]
  }

  /** The channels of the registered clients that fit. */
  ghost function SendsOf<H, C>(s: Hub<H, C>, fits: string -> bool): iset<C>
    requires Known(s)
  {
    iset i | i in s.clients && fits(i) :: s.peers[s.clients[i]].send
  }

  lemma DeliveredIsHeard<H, C>(s: Hub<H, C>, targets: set<C>, to: iset<C>, msg: string)
    requires forall c :: c in targets ==> c in s.chans && !s.chans[c].closed
    requires forall c :: c in to <==> c in targets
    ensures Heard(s, Deliver(s, targets, msg), to, msg)
  {
  }

  /** A message to one client goes to that client's channel, if it is registered. */
  lemma OneClientHears<H, C>(s: Hub<H, C>, id: string, msg: string)
    requires Inv(s)
    ensures Heard(s, SendToClient(s, id, msg), SendsOf(s, i => i == id), msg)
  {
    if id in s.clients {
      assert Live(s.clients, s.peers, s.chans, id);
      DeliveredIsHeard(s, {s.peers[s.clients[id]].send}, SendsOf(s, i => i == id), msg);
    }
  }

  lemma MembersAreJoined<H, C>(s: Hub<H, C>, room: RoomKey, c: C)
    requires Inv(s)
    ensures c in MemberChannels(s, room) <==> c in SendsOf(s, i => Joined(s.clients, s.peers, i, room))
  {
    if c in MemberChannels(s, room) {
      var i :| i in MembersOf(s, room) && s.peers[MembersOf(s, room)[i]].send == c;
      MemberIsOpen(s, room, i);
      assert Joined(s.clients, s.peers, i, room);
    }
    if c in SendsOf(s, i => Joined(s.clients, s.peers, i, room)) {
      var i :| i in s.clients && Joined(s.clients, s.peers, i, room) && s.peers[s.clients[i]].send == c;
      assert Listed(s.rooms, room, i);
    }
  }

  /** A room broadcast goes to the registered clients that are in the room. */
  lemma RoomHears<H, C>(s: Hub<H, C>, room: RoomKey, msg: string)
    requires Inv(s)
    ensures Heard(s, Broadcast(s, room, msg), SendsOf(s, i => Joined(s.clients, s.peers, i, room)), msg)
  {
    if !s.closed {
      MembersAreOpen(s, room);
      forall c { MembersAreJoined(s, room, c); }
      DeliveredIsHeard(s, MemberChannels(s, room), SendsOf(s, i => Joined(s.clients, s.peers, i, room)), msg);
    }
  }

  /** An organization broadcast goes to the registered clients of the organization that are on the channel. */
  lemma OrganizationHears<H, C>(s: Hub<H, C>, org: Uuid, channel: string, msg: string)
    requires Inv(s) && RoomsAreOwn(s.peers)
    ensures Heard(s, BroadcastToOrganization(s, org, channel, msg),
      SendsOf(s, i => Known(s) && Addressed(s, i, org, channel)), msg)
  {
    var to := SendsOf(s, i => Known(s) && Addressed(s, i, org, channel));
    if !s.closed {
      MatchingAreOpen(s, org, channel);
      forall c ensures c in to <==> c in MatchingChannels(s, org, channel) {
        MatchingIsAddressed(s, org, channel, c);
      }
      DeliveredIsHeard(s, MatchingChannels(s, org, channel), to, msg);
    }
  }

  // -------------------------------------------------------------- the last word

  /** Registered, and in its own room of that name. */
  ghost predicate On<H, C>(s: Hub<H, C>, id: string, channel: string)
    requires Known(s)
  {
    id in s.clients && Addressed(s, id, s.peers[s.clients[id]].org, channel)
  }

  /** The operations that put a client on a channel, and those that take it off: a registration starts on "events"
      alone. */
  predicate Joins<H, C>(op: Op<H, C>, id: string, channel: string) {
    match op
    case OpRegister(_, _, _, i, _, _) => i == id && channel == "events"
    case OpSubscribe(i, c) => i == id && NormalChannel(c) == channel
    case _ => false
  }

  predicate Leaves<H, C>(op: Op<H, C>, id: string, channel: string) {
    match op
    case OpRegister(_, _, _, i, _, _) => i == id && channel != "events"
    case OpUnsubscribe(i, c) => i == id && NormalChannel(c) == channel
    case _ => false
  }

  /** The room a client means by a name, as a pair of the index: one client, one name, one pair. */
  lemma OnIsJoined<H, C>(s: Hub<H, C>, id: string, channel: string)
    requires Known(s) && id in s.clients && ValidChannel(channel)
    ensures On(s, id, channel) <==>
      Joined(s.clients, s.peers, id, FormatKey(s.peers[s.clients[id]].org, s.peers[s.clients[id]].app, channel))
  {
  }

  lemma SamePeerSameOn<H, C>(s: Hub<H, C>, t: Hub<H, C>, id: string, channel: string)
    requires Known(s) && Known(t) && id in s.clients && id in t.clients
    requires t.peers[t.clients[id]] == s.peers[s.clients[id]]
    ensures On(t, id, channel) <==> On(s, id, channel)
  {
  }

  lemma SubscribeDecides<H, C>(s: Hub<H, C>, i: string, c: string, id: string, channel: string)
    requires Inv(s) && ValidChannel(channel) && id in s.clients
    ensures var t := Subscribe(s, i, c).0;
      Known(t) && (On(t, id, channel) <==> (i == id && NormalChannel(c) == channel) || On(s, id, channel))
  {
    var t := Subscribe(s, i, c).0;
    SubscribedIsIn(s, i, c);
    if Acceptable(s, i, c) {
      assert Filed(s, s.clients[id]);
      OnIsJoined(s, id, channel);
      OnIsJoined(t, id, channel);
      var p := s.peers[s.clients[id]];
      if i == id && FormatKey(p.org, p.app, channel) == RoomFor(s, id, c) {
        KeyInjective(p.org, p.app, channel, p.org, p.app, NormalChannel(c));
      }
    }
  }

  lemma UnsubscribeDecides<H, C>(s: Hub<H, C>, i: string, c: string, id: string, channel: string)
    requires Inv(s) && ValidChannel(channel) && id in s.clients
    ensures var t := Unsubscribe(s, i, c).0;
      Known(t) && (On(t, id, channel) <==> On(s, id, channel) && !(i == id && NormalChannel(c) == channel))
  {
    var t := Unsubscribe(s, i, c).0;
    UnsubscribedIsOut(s, i, c);
    if Acceptable(s, i, c) {
      assert Filed(s, s.clients[id]);
      OnIsJoined(s, id, channel);
      OnIsJoined(t, id, channel);
      var p := s.peers[s.clients[id]];
      if i == id && FormatKey(p.org, p.app, channel) == RoomFor(s, id, c) {
        KeyInjective(p.org, p.app, channel, p.org, p.app, NormalChannel(c));
      }
    }
  }

  lemma RegisterDecides<H, C>(s: Hub<H, C>, h: H, c: C, cap: nat, i: string, org: Uuid, app: Uuid, id: string,
      channel: string)
    requires Inv(s) && Enabled(s, OpRegister(h, c, cap, i, org, app)) && ValidChannel(channel)
    ensures var t := Register(s, h, c, Chan(cap, [], false), i, org, app).0;
      && Known(t) && (id in t.clients ==> if i == id then On(t, id, channel) <==> channel == "events"
                                          else id in s.clients && (On(t, id, channel) <==> On(s, id, channel)))
  {
    var t := Register(s, h, c, Chan(cap, [], false), i, org, app).0;
    RegisterKnown(s, h, c, Chan(cap, [], false), i, org, app);
    RegisteredIsIn(s, h, c, cap, i, org, app);
    NewIdIsFree(s, i);
    if !s.closed && |s.clients| < s.max {
      if id in t.clients { AdmittedDecides(s, t, h, c, i, org, app, id, channel); }
    } else if id in s.clients {
      SamePeerSameOn(s, t, id, channel);
    }
  }

  lemma NewIdIsFree<H, C>(s: Hub<H, C>, id: string)
    requires AllLive(s) && forall g :: g in s.peers ==> s.peers[g].id != id
    ensures id !in s.clients
  {
    assert id in s.clients ==> Live(s.clients, s.peers, s.chans, id);
  }

  lemma AdmittedDecides<H, C>(s: Hub<H, C>, t: Hub<H, C>, h: H, c: C, i: string, org: Uuid, app: Uuid, id: string,
      channel: string)
    requires Known(s) && Known(t) && i !in s.clients && h !in s.peers
    requires Admitted(s, t, h, c, i, org, app, FormatKey(org, app, "events"))
    requires ValidChannel(channel) && id in t.clients
    ensures i == id ==> (On(t, id, channel) <==> channel == "events")
    ensures i != id ==> id in s.clients && (On(t, id, channel) <==> On(s, id, channel))
  {
    if i != id {
      assert Filed(s, s.clients[id]);
      SamePeerSameOn(s, t, id, channel);
    } else if On(t, id, channel) {
      KeyInjective(org, app, channel, org, app, "events");
    }
  }

  /** An operation that registers and unregisters nobody else keeps what a registered client is on. */
  lemma StepDecides<H, C>(s: Hub<H, C>, op: Op<H, C>, id: string, channel: string)
    requires Inv(s) && Enabled(s, op) && ValidChannel(channel) && id in Step(s, op).clients
    ensures Known(Step(s, op))
    ensures On(Step(s, op), id, channel) <==>
      Joins(op, id, channel) || (On(s, id, channel) && !Leaves(op, id, channel))
  {
    StepKnown(s, op);
    if op.OpRegister? {
      RegisterDecides(s, op.h, op.c, op.cap, op.id, op.org, op.app, id, channel);
    } else if op.OpSubscribe? {
      SubscribeDecides(s, op.id, op.channel, id, channel);
    } else if op.OpUnsubscribe? {
      UnsubscribeDecides(s, op.id, op.channel, id, channel);
    } else {
      OthersDecideNothing(s, op, id, channel);
    }
  }

  lemma OthersDecideNothing<H, C>(s: Hub<H, C>, op: Op<H, C>, id: string, channel: string)
    requires Inv(s) && Enabled(s, op) && !op.OpRegister? && !op.OpSubscribe? && !op.OpUnsubscribe?
    requires Known(Step(s, op)) && id in Step(s, op).clients
    ensures On(Step(s, op), id, channel) <==> On(s, id, channel)
  {
    if op.OpUnregister? {
      RemoveSparesOthers(s, op.h, id, channel);
    } else if op != OpClose {
      SendsOnly(s, op);
      SamePeerSameOn(s, Step(s, op), id, channel);
    }
  }

  lemma SendsOnly<H, C>(s: Hub<H, C>, op: Op<H, C>)
    requires Known(s) && (op.OpSend? || op.OpBroadcast? || op.OpBroadcastOrg? || op.OpDrain?)
    ensures Step(s, op).clients == s.clients && Step(s, op).peers == s.peers
  {
    match op
    case OpSend(id, msg) => SendStays(s, id, msg);
    case OpBroadcast(room, msg) => BroadcastStays(s, room, msg);
    case OpBroadcastOrg(org, channel, msg) => OrgBroadcastStays(s, org, channel, msg);
    case OpDrain(c) =>
  }

  lemma SendStays<H, C>(s: Hub<H, C>, id: string, msg: string)
    requires Known(s)
    ensures SendToClient(s, id, msg).clients == s.clients && SendToClient(s, id, msg).peers == s.peers
  {
    if id in s.clients { TablesStay(s, {s.peers[s.clients[id]].send}, msg); }
  }

  lemma BroadcastStays<H, C>(s: Hub<H, C>, room: RoomKey, msg: string)
    requires Known(s)
    ensures Broadcast(s, room, msg).clients == s.clients && Broadcast(s, room, msg).peers == s.peers
  {
    TablesStay(s, MemberChannels(s, room), msg);
  }

  lemma OrgBroadcastStays<H, C>(s: Hub<H, C>, org: Uuid, channel: string, msg: string)
    requires Known(s)
    ensures var t := BroadcastToOrganization(s, org, channel, msg); t.clients == s.clients && t.peers == s.peers
  {
    TablesStay(s, MatchingChannels(s, org, channel), msg);
  }

  lemma TablesStay<H, C>(s: Hub<H, C>, targets: set<C>, msg: string)
    ensures Deliver(s, targets, msg).clients == s.clients && Deliver(s, targets, msg).peers == s.peers
  {
  }

  lemma RemoveSparesOthers<H, C>(s: Hub<H, C>, h: H, id: string, channel: string)
    requires Inv(s) && h in s.peers && Known(RemoveClient(s, h)) && id in RemoveClient(s, h).clients
    ensures On(RemoveClient(s, h), id, channel) <==> On(s, id, channel)
  {
    var t := RemoveClient(s, h);
    RemoveRegisteredKeeps(s, h);
    assert id in s.clients && t.clients[id] == s.clients[id];
    assert Live(s.clients, s.peers, s.chans, id) && s.clients[id] != h;
    SamePeerSameOn(s, t, id, channel);
  }

  /** Operation k put the client on the channel and no later one took it off. */
  ghost predicate OnSince<H, C>(ops: seq<Op<H, C>>, k: nat, id: string, channel: string) {
    && k < |ops| && Joins(ops[k], id, channel)
    && forall j :: k < j < |ops| ==> !Leaves(ops[j], id, channel)
  }

  ghost predicate NeverLeaves<H, C>(ops: seq<Op<H, C>>, id: string, channel: string) {
    forall j :: 0 <= j < |ops| ==> !Leaves(ops[j], id, channel)
  }

  /** Some operation put the client on the channel, or it was on it before, and none took it off later. */
  ghost predicate LastWordIsIn<H, C>(ops: seq<Op<H, C>>, id: string, channel: string, before: bool) {
    (before && NeverLeaves(ops, id, channel)) || exists k: nat :: OnSince(ops, k, id, channel)
  }

  lemma {:induction false} OneMoreSince<H, C>(ops: seq<Op<H, C>>, op: Op<H, C>, k: nat, id: string, channel: string)
    ensures OnSince(ops + [op], k, id, channel) <==>
      if k == |ops| then Joins(op, id, channel) else OnSince(ops, k, id, channel) && !Leaves(op, id, channel)
  {
    var more := ops + [op];
    if OnSince(more, k, id, channel) && k < |ops| {
      forall j | k < j < |ops| ensures !Leaves(ops[j], id, channel) { assert more[j] == ops[j]; }
      assert !Leaves(more[|ops|], id, channel);
    }
  }

  lemma {:induction false} OneMoreWord<H, C>(ops: seq<Op<H, C>>, op: Op<H, C>, id: string, channel: string,
      before: bool)
    ensures LastWordIsIn(ops + [op], id, channel, before) <==>
      Joins(op, id, channel) || (LastWordIsIn(ops, id, channel, before) && !Leaves(op, id, channel))
  {
    var more := ops + [op];
    forall k: nat ensures OnSince(more, k, id, channel) <==>
      if k == |ops| then Joins(op, id, channel) else OnSince(ops, k, id, channel) && !Leaves(op, id, channel)
    {
      OneMoreSince(ops, op, k, id, channel);
    }
    if NeverLeaves(more, id, channel) {
      forall j | 0 <= j < |ops| ensures !Leaves(ops[j], id, channel) { assert more[j] == ops[j]; }
      assert !Leaves(more[|ops|], id, channel);
    }
    if Joins(op, id, channel) { assert OnSince(more, |ops|, id, channel); }
  }

  lemma RunFirst<H, C>(s: Hub<H, C>, ops: seq<Op<H, C>>)
    requires Known(s) && ops != [] && Lawful(s, ops)
    ensures Enabled(s, ops[0]) && Known(Step(s, ops[0])) && Lawful(Step(s, ops[0]), ops[1..])
    ensures Run(s, ops) == Run(Step(s, ops[0]), ops[1..])
  {
    StepKnown(s, ops[0]);
  }

  lemma RunCons<H, C>(s: Hub<H, C>, op: Op<H, C>, ops: seq<Op<H, C>>)
    requires Known(s) && Enabled(s, op) && Known(Step(s, op)) && Lawful(Step(s, op), ops)
    ensures Lawful(s, [op] + ops) && Run(s, [op] + ops) == Run(Step(s, op), ops)
  {
    assert ([op] + ops)[1..] == ops;
  }

  lemma RunOne<H, C>(s: Hub<H, C>, op: Op<H, C>)
    requires Known(s) && Lawful(s, [op])
    ensures Enabled(s, op) && Run(s, [op]) == Step(s, op)
  {
    RunFirst(s, [op]);
    assert [op][1..] == [];
  }

  lemma {:induction false} RunOneMore<H, C>(s: Hub<H, C>, ops: seq<Op<H, C>>, op: Op<H, C>)
    requires Known(s) && Lawful(s, ops + [op])
    ensures Lawful(s, ops) && Known(Run(s, ops)) && Enabled(Run(s, ops), op)
    ensures Run(s, ops + [op]) == Step(Run(s, ops), op)
    decreases |ops|
  {
    if ops == [] {
      assert ops + [op] == [op];
      RunOne(s, op);
    } else {
      RunFirst(s, ops + [op]);
      var t := Step(s, ops[0]);
      assert (ops + [op])[1..] == ops[1..] + [op] && ops == [ops[0]] + ops[1..];
      RunOneMore(t, ops[1..], op);
      RunCons(s, ops[0], ops[1..]);
    }
  }

  lemma LastStep<H, C>(s: Hub<H, C>, op: Op<H, C>, id: string, channel: string, word: bool)
    requires Inv(s) && Enabled(s, op) && ValidChannel(channel) && id in Step(s, op).clients
    requires id in s.clients ==> (On(s, id, channel) <==> word)
    ensures Known(Step(s, op))
    ensures On(Step(s, op), id, channel) <==> Joins(op, id, channel) || (word && !Leaves(op, id, channel))
  {
    StepDecides(s, op, id, channel);
    if id !in s.clients { RegisteredAfter(s, op, id); }
  }

  /** After any run a registered client is on a channel exactly if the last registration, subscription or
      unsubscription that is about the two put it there. */
  lemma {:induction false} OnByLastWord<H, C>(s: Hub<H, C>, ops: seq<Op<H, C>>, id: string, channel: string)
    requires Inv(s) && Lawful(s, ops) && ValidChannel(channel)
    ensures Known(Run(s, ops))
    ensures id in Run(s, ops).clients ==>
      (On(Run(s, ops), id, channel) <==> LastWordIsIn(ops, id, channel, On(s, id, channel)))
    decreases |ops|, 0
  {
    if ops != [] {
      var init, last := ops[..|ops| - 1], ops[|ops| - 1];
      assert ops == init + [last];
      OnOneMore(s, init, last, id, channel);
    }
  }

  lemma {:induction false} OnOneMore<H, C>(s: Hub<H, C>, ops: seq<Op<H, C>>, op: Op<H, C>, id: string, channel: string)
    requires Inv(s) && Lawful(s, ops + [op]) && ValidChannel(channel)
    ensures Known(Run(s, ops + [op]))
    ensures id in Run(s, ops + [op]).clients ==>
      (On(Run(s, ops + [op]), id, channel) <==> LastWordIsIn(ops + [op], id, channel, On(s, id, channel)))
    decreases |ops|, 1
  {
    RunOneMore(s, ops, op);
    RunKeeps(s, ops);
    OnByLastWord(s, ops, id, channel);
    OneMoreTold(Run(s, ops), Run(s, ops + [op]), ops, op, id, channel, On(s, id, channel));
  }

  lemma {:induction false} OneMoreTold<H, C>(t: Hub<H, C>, u: Hub<H, C>, ops: seq<Op<H, C>>, op: Op<H, C>, id: string,
      channel: string, before: bool)
    requires Inv(t) && Enabled(t, op) && u == Step(t, op) && ValidChannel(channel)
    requires id in t.clients ==> (On(t, id, channel) <==> LastWordIsIn(ops, id, channel, before))
    ensures Known(u)
    ensures id in u.clients ==> (On(u, id, channel) <==> LastWordIsIn(ops + [op], id, channel, before))
  {
    StepKnown(t, op);
    OneMoreWord(ops, op, id, channel, before);
    if id in u.clients { LastStep(t, op, id, channel, LastWordIsIn(ops, id, channel, before)); }
  }

  /** Who is registered after a step: whoever it admits, and whoever was, unless the step takes that client away or
      closes the hub. */
  lemma RegisteredAfter<H, C>(s: Hub<H, C>, op: Op<H, C>, id: string)
    requires Inv(s) && Enabled(s, op)
    ensures id in Step(s, op).clients <==>
      || (op.OpRegister? && op.id == id && !s.closed && |s.clients| < s.max)
      || (id in s.clients && op != OpClose && !(op.OpUnregister? && s.peers[op.h].id == id))
  {
    match op
    case OpRegister(h, c, cap, i, org, app) =>
      RegisteredIsIn(s, h, c, cap, i, org, app);
      NewIdIsFree(s, i);
    case OpSubscribe(i, c) => SubscribedIsIn(s, i, c);
    case OpUnsubscribe(i, c) => UnsubscribedIsOut(s, i, c);
    case OpUnregister(h) => RemovedAlone(s, h, id);
    case OpClose =>
    case _ => SendsOnly(s, op);
  }

  lemma RemovedAlone<H, C>(s: Hub<H, C>, h: H, id: string)
    requires Known(s) && h in s.peers
    ensures id in RemoveClient(s, h).clients <==> id in s.clients && s.peers[h].id != id
  {
    if s.peers[h].id in s.clients { RemoveTearsDown(s, h); }
  }

  /** Main result. From a new hub, after any run: an organization broadcast on a channel is received by a registered
      client exactly if the client is of that organization and its last word on the channel was to be on it. */
  lemma BroadcastFollowsLastWord<H, C>(max: int, ops: seq<Op<H, C>>, id: string, org: Uuid, channel: string,
      msg: string)
    requires Lawful(NewHub<H, C>(max), ops) && ValidChannel(channel)
    ensures var t := Run(NewHub<H, C>(max), ops);
      && Known(t) && (id in t.clients ==>
        var p, u := t.peers[t.clients[id]], BroadcastToOrganization(t, org, channel, msg);
        && p.send in t.chans && p.send in u.chans && !t.chans[p.send].closed
        && if p.org == org && LastWordIsIn(ops, id, channel, false)
           then Received(t.chans[p.send], u.chans[p.send], msg)
           else u.chans[p.send] == t.chans[p.send])
  {
    var s := NewHub<H, C>(max);
    var t := Run(s, ops);
    RunKeeps(s, ops);
    RunKeepsOwn(s, ops);
    OnByLastWord(s, ops, id, channel);
    if id in t.clients {
      OrganizationHears(t, org, channel, msg);
      SendsAreOwn(t, id, i => Known(t) && Addressed(t, i, org, channel));
    }
  }

  /** No two clients share a channel, so whose channel it is decides. */
  lemma SendsAreOwn<H, C>(s: Hub<H, C>, id: string, fits: string -> bool)
    requires Inv(s) && id in s.clients
    ensures Filed(s, s.clients[id]) && !s.chans[s.peers[s.clients[id]].send].closed
    ensures s.peers[s.clients[id]].send in SendsOf(s, fits) <==> fits(id)
  {
    assert Live(s.clients, s.peers, s.chans, id);
    if s.peers[s.clients[id]].send in SendsOf(s, fits) {
      var i :| i in s.clients && fits(i) && s.peers[s.clients[i]].send == s.peers[s.clients[id]].send;
      assert Live(s.clients, s.peers, s.chans, i);
    }
  }

  // ------------------------------------------------------------- the buffers

  /** The message an operation sends, if it sends one. */
  function Sent<H, C>(op: Op<H, C>): Option<string> {
    match op
    case OpSend(_, msg) => Some(msg)
    case OpBroadcast(_, msg) => Some(msg)
    case OpBroadcastOrg(_, _, msg) => Some(msg)
    case _ => None
  }

  /** What one step can do to a buffer: nothing, add the message it sends at the end if there is room, or take the
      oldest one out to be written. */
  ghost predicate Moves<H, C>(op: Op<H, C>, c: C, ch: Chan, ch': Chan) {
    && ch'.cap == ch.cap && (ch.closed ==> ch'.closed)
    && if op == OpDrain(c) && ch.queue != [] then ch.queue == [ch.queue[0]] + ch'.queue
       else ch'.queue == ch.queue || (Sent(op).Some? && Received(ch, ch', Sent(op).value))
  }

  lemma SendsMove<H, C>(s: Hub<H, C>, op: Op<H, C>, c: C)
    requires Inv(s) && RoomsAreOwn(s.peers) && Sent(op).Some? && c in s.chans
    ensures c in Step(s, op).chans && Moves(op, c, s.chans[c], Step(s, op).chans[c])
  {
    match op
    case OpSend(id, msg) => OneClientHears(s, id, msg);
    case OpBroadcast(room, msg) => RoomHears(s, room, msg);
    case OpBroadcastOrg(org, channel, msg) => OrganizationHears(s, org, channel, msg);
  }

  lemma RemoveMoves<H, C>(s: Hub<H, C>, h: H, c: C)
    requires Inv(s) && h in s.peers && c in s.chans
    ensures c in RemoveClient(s, h).chans && Moves(OpUnregister(h), c, s.chans[c], RemoveClient(s, h).chans[c])
  {
  }

  lemma CloseMoves<H, C>(s: Hub<H, C>, c: C)
    requires Known(s) && c in s.chans
    ensures c in CloseHub(s).chans && Moves(Op<H, C>.OpClose, c, s.chans[c], CloseHub(s).chans[c])
  {
  }

  lemma RegisterMoves<H, C>(s: Hub<H, C>, h: H, d: C, cap: nat, id: string, org: Uuid, app: Uuid, c: C)
    requires Inv(s) && Enabled(s, OpRegister(h, d, cap, id, org, app)) && c in s.chans
    ensures var t := Register(s, h, d, Chan(cap, [], false), id, org, app).0;
      c in t.chans && t.chans[c] == s.chans[c]
  {
    RegisteredIsIn(s, h, d, cap, id, org, app);
  }

  lemma SubscriptionsLeave<H, C>(s: Hub<H, C>, id: string, channel: string)
    requires Inv(s)
    ensures Subscribe(s, id, channel).0.chans == s.chans && Unsubscribe(s, id, channel).0.chans == s.chans
  {
    SubscribedIsIn(s, id, channel);
    UnsubscribedIsOut(s, id, channel);
  }

  lemma StepMoves<H, C>(s: Hub<H, C>, op: Op<H, C>, c: C)
    requires Inv(s) && RoomsAreOwn(s.peers) && Enabled(s, op) && c in s.chans
    ensures c in Step(s, op).chans && Moves(op, c, s.chans[c], Step(s, op).chans[c])
  {
    match op
    case OpRegister(h, d, cap, id, org, app) => RegisterMoves(s, h, d, cap, id, org, app, c);
    case OpSubscribe(id, channel) => SubscriptionsLeave(s, id, channel);
    case OpUnsubscribe(id, channel) => SubscriptionsLeave(s, id, channel);
    case OpUnregister(h) => RemoveMoves(s, h, c);
    case OpClose => CloseMoves(s, c);
    case OpDrain(d) =>
    case _ => SendsMove(s, op, c);
  }

  /** The messages a run sends, in order. */
  function AllSent<H, C>(ops: seq<Op<H, C>>): seq<string> {
    if ops == [] then []
    else (if Sent(ops[0]).Some? then [Sent(ops[0]).value] else []) + AllSent(ops[1..])
  }

  /** The messages a run takes out of a buffer to be written, in order. */
  ghost function Written<H, C>(s: Hub<H, C>, ops: seq<Op<H, C>>, c: C): seq<string>
    requires Known(s) && Lawful(s, ops)
    decreases |ops|
  {
    if ops == [] then []
    else
      StepKnown(s, ops[0]);
      (if ops[0] == OpDrain(c) && c in s.chans && s.chans[c].queue != [] then [s.chans[c].queue[0]] else []) +
      Written(Step(s, ops[0]), ops[1..], c)
  }

  /** `some` is what is left of `all` when elements are taken out of it. */
  ghost predicate Within(some: seq<string>, all: seq<string>) {
    if some == [] then true
    else all != [] && (if some[0] == all[0] && Within(some[1..], all[1..]) then true else Within(some, all[1..]))
  }

  lemma WithinMore(some: seq<string>, all: seq<string>, x: string)
    requires Within(some, all)
    ensures Within(some, [x] + all) && Within([x] + some, [x] + all)
  {
    assert ([x] + all)[1..] == all && ([x] + some)[1..] == some;
  }

  /** Nothing is invented, repeated or overtaken: over any run, what is taken out of a client's buffer and what is
      left in it are what it held at the start and then messages that were sent, in the order in which they were sent,
      with some left out. */
  lemma {:induction false} BufferInOrder<H, C>(s: Hub<H, C>, ops: seq<Op<H, C>>, c: C) returns (taken: seq<string>)
    requires Inv(s) && RoomsAreOwn(s.peers) && Lawful(s, ops) && c in s.chans
    ensures Known(s) && Known(Run(s, ops)) && c in Run(s, ops).chans
    ensures Within(taken, AllSent(ops))
    ensures Written(s, ops, c) + Run(s, ops).chans[c].queue == s.chans[c].queue + taken
    decreases |ops|
  {
    taken := [];
    if ops != [] {
      var t := Step(s, ops[0]);
      StepKeeps(s, ops[0]);
      StepKeepsOwn(s, ops[0]);
      StepMoves(s, ops[0], c);
      var later := BufferInOrder(t, ops[1..], c);
      RunFirst(s, ops);
      taken := TakenFirst(ops, c, s.chans[c], t.chans[c], later, Written(t, ops[1..], c), Run(s, ops).chans[c].queue);
    }
  }

  lemma SentFirst<H, C>(ops: seq<Op<H, C>>, later: seq<string>)
    requires ops != [] && Within(later, AllSent(ops[1..]))
    ensures Within(later, AllSent(ops))
    ensures Sent(ops[0]).Some? ==> Within([Sent(ops[0]).value] + later, AllSent(ops))
  {
    if Sent(ops[0]).Some? {
      WithinMore(later, AllSent(ops[1..]), Sent(ops[0]).value);
    } else {
      assert AllSent(ops) == AllSent(ops[1..]);
    }
  }

  lemma TakenFirst<H, C>(ops: seq<Op<H, C>>, c: C, ch: Chan, ch': Chan, later: seq<string>, written: seq<string>,
      end: seq<string>) returns (taken: seq<string>)
    requires ops != [] && Moves(ops[0], c, ch, ch') && Within(later, AllSent(ops[1..]))
    requires written + end == ch'.queue + later
    ensures Within(taken, AllSent(ops))
    ensures (if ops[0] == OpDrain(c) && ch.queue != [] then [ch.queue[0]] else []) + written + end == ch.queue + taken
  {
    var head := if ops[0] == OpDrain(c) && ch.queue != [] then [ch.queue[0]] else [];
    SentFirst(ops, later);
    if head == [] && ch'.queue != ch.queue {
      taken := [Sent(ops[0]).value] + later;
      AtTheEnd(ch.queue, Sent(ops[0]).value, written, end, later);
    } else {
      taken := later;
      InFront(head, ch'.queue, written, end, later);
    }
  }

  lemma AtTheEnd(queue: seq<string>, msg: string, written: seq<string>, end: seq<string>, later: seq<string>)
    requires written + end == queue + [msg] + later
    ensures [] + written + end == queue + ([msg] + later)
  {
    assert [] + written == written;
    Associates(queue, [msg], later);
  }

  lemma InFront(head: seq<string>, queue: seq<string>, written: seq<string>, end: seq<string>, later: seq<string>)
    requires written + end == queue + later
    ensures head + written + end == head + queue + later
  {
    assert head + written + end == head + (written + end);
  }
}

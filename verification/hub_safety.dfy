/** Safety of the hub over whole runs, and exactly what a teardown through the wrong client object does. */
module HubSafety {
  import opened Options
  import opened Rooms
  import opened HubSpec

  /** Client objects that differ only in their room sets. */
  ghost predicate SameButRooms<H, C>(peers: map<H, Client<C>>, peers': map<H, Client<C>>) {
    peers.Keys == peers'.Keys && forall h :: h in peers ==> peers'[h] == peers[h].(rooms := peers'[h].rooms)
  }

  lemma RoomChangeKeeps<H, C>(s: Hub<H, C>, t: Hub<H, C>)
    requires Known(s) && Distinct(s.peers) && AllLive(s)
    requires t == s.(rooms := t.rooms, peers := t.peers) && SameButRooms(s.peers, t.peers)
    requires forall r, i :: r in t.rooms && i in t.rooms[r] ==> t.rooms[r][i] in t.peers
    ensures Known(t) && Distinct(t.peers) && AllLive(t)
  {
    forall h | h in t.peers ensures Filed(t, h) { assert Filed(s, h); }
    forall i | i in t.clients ensures Live(t.clients, t.peers, t.chans, i) && Filed(t, t.clients[i]) {
      assert Live(s.clients, s.peers, s.chans, i);
    }
  }

  lemma AddToRoomIndex<H, C>(s: Hub<H, C>, h: H, room: RoomKey)
    requires IndexesAgree(s) && AllLive(s) && h in s.peers && s.peers[h].id in s.clients
    requires s.clients[s.peers[h].id] == h
    ensures IndexesAgree(AddToRoom(s, h, room))
  {
    var t, id := AddToRoom(s, h, room), s.peers[h].id;
    forall r, i
      ensures Listed(t.rooms, r, i) <==> Listed(s.rooms, r, i) || (r == room && i == id)
      ensures Joined(t.clients, t.peers, i, r) <==> Joined(s.clients, s.peers, i, r) || (r == room && i == id)
    {
      if i in s.clients && s.clients[i] == h { assert Live(s.clients, s.peers, s.chans, i); }
    }
    forall r | r in t.rooms ensures exists i :: Listed(t.rooms, r, i) {
      if r == room {
        assert Listed(t.rooms, r, id);
      } else {
        var i :| Listed(s.rooms, r, i);
        assert Listed(t.rooms, r, i);
      }
    }
  }

  lemma AddToRoomKeeps<H, C>(s: Hub<H, C>, h: H, room: RoomKey)
    requires Inv(s) && h in s.peers && s.peers[h].id in s.clients && s.clients[s.peers[h].id] == h
    ensures Inv(AddToRoom(s, h, room))
  {
    AddToRoomIndex(s, h, room);
    MembersStayMade(s, h, room);
    RoomChangeKeeps(s, AddToRoom(s, h, room));
  }

  lemma MembersStayMade<H, C>(s: Hub<H, C>, h: H, room: RoomKey)
    requires Known(s) && h in s.peers
    ensures var t := AddToRoom(s, h, room);
      forall r, i :: r in t.rooms && i in t.rooms[r] ==> t.rooms[r][i] in t.peers
  {
    var t := AddToRoom(s, h, room);
    forall r, i | r in t.rooms && i in t.rooms[r] ensures t.rooms[r][i] in t.peers {
      assert t.rooms[r][i] == h || (Listed(s.rooms, r, i) && Filed(s, s.rooms[r][i]));
    }
  }

  /** A step that keeps the channels and only adds room members that were made stays inside what is known. */
  lemma KnownAfter<H, C>(s: Hub<H, C>, t: Hub<H, C>)
    requires Known(s)
    requires forall i :: i in t.clients ==> Filed(t, t.clients[i])
    requires forall r, i :: r in t.rooms && i in t.rooms[r] ==> t.rooms[r][i] in t.peers
    requires forall h :: h in t.peers ==> t.peers[h].send in t.chans
    ensures Known(t)
  {
  }

  lemma EnrolKeeps<H, C>(s: Hub<H, C>, h: H, c: C, ch: Chan, id: string, org: Uuid, app: Uuid)
    requires Inv(s) && h !in s.peers && c !in s.chans && !ch.closed && !s.closed && |s.clients| < s.max
    requires forall g :: g in s.peers ==> s.peers[g].id != id
    ensures Inv(Enrol(s, h, c, ch, id, org, app))
  {
    EnrolClients(s, h, c, ch, id, org, app);
    EnrolIndex(s, h, c, ch, id, org, app);
    CardinalityGrows(s.clients, id, h);
  }

  lemma CardinalityGrows<H>(m: map<string, H>, i: string, h: H)
    requires i !in m
    ensures |m[i := h]| == |m| + 1
  {
  }

  lemma EnrolClients<H, C>(s: Hub<H, C>, h: H, c: C, ch: Chan, id: string, org: Uuid, app: Uuid)
    requires Known(s) && Distinct(s.peers) && AllLive(s) && h !in s.peers && c !in s.chans && !ch.closed
    requires forall g :: g in s.peers ==> s.peers[g].id != id
    ensures var t := Enrol(s, h, c, ch, id, org, app);
            Known(t) && Distinct(t.peers) && AllLive(t) && id !in s.clients
  {
    var t := Enrol(s, h, c, ch, id, org, app);
    forall i | i in s.clients ensures i != id && Live(t.clients, t.peers, t.chans, i) {
      assert Live(s.clients, s.peers, s.chans, i);
    }
    forall g | g in s.peers ensures Filed(t, g) && s.peers[g].send != c { assert Filed(s, g); }
    assert Filed(t, h);
    forall r, i | r in t.rooms && i in t.rooms[r] ensures Filed(t, t.rooms[r][i]) { assert Filed(s, s.rooms[r][i]); }
  }

  lemma EnrolIndex<H, C>(s: Hub<H, C>, h: H, c: C, ch: Chan, id: string, org: Uuid, app: Uuid)
    requires IndexesAgree(s) && AllLive(s) && h !in s.peers && id !in s.clients
    ensures IndexesAgree(Enrol(s, h, c, ch, id, org, app))
  {
  }

  lemma EnrolInKeeps<H, C>(s: Hub<H, C>, h: H, c: C, ch: Chan, id: string, org: Uuid, app: Uuid, room: RoomKey)
    requires Inv(s) && h !in s.peers && c !in s.chans && !ch.closed && !s.closed && |s.clients| < s.max
    requires forall g :: g in s.peers ==> s.peers[g].id != id
    ensures Inv(EnrolIn(s, h, c, ch, id, org, app, room))
  {
    EnrolKeeps(s, h, c, ch, id, org, app);
    AddToRoomKeeps(Enrol(s, h, c, ch, id, org, app), h, room);
  }

  lemma RegisterKeeps<H, C>(s: Hub<H, C>, h: H, c: C, cap: nat, id: string, org: Uuid, app: Uuid)
    requires Inv(s) && Enabled(s, OpRegister(h, c, cap, id, org, app))
    ensures Inv(Register(s, h, c, Chan(cap, [], false), id, org, app).0)
  {
    var ch := Chan(cap, [], false);
    if s.closed {
    } else if |s.clients| >= s.max {
      ChansGrow(s, s.chans[c := ch.(closed := true)]);
      assert s.chans[c := ch][c := ch.(closed := true)] == s.chans[c := ch.(closed := true)];
    } else {
      EnrolInKeeps(s, h, c, ch, id, org, app, FormatKey(org, app, DEFAULT_CHANNEL));
    }
  }

  /** Changing buffers, or adding channels, without closing any keeps everything. */
  lemma ChansGrow<H, C>(s: Hub<H, C>, chans: map<C, Chan>)
    requires Inv(s) && s.chans.Keys <= chans.Keys
    requires forall c :: c in s.chans ==> chans[c].closed == s.chans[c].closed
    ensures Inv(s.(chans := chans))
  {
    var t := s.(chans := chans);
    forall i | i in t.clients ensures Live(t.clients, t.peers, t.chans, i) {
      assert Live(s.clients, s.peers, s.chans, i);
    }
    forall h | h in t.peers ensures Filed(t, h) { assert Filed(s, h); }
    KnownAfter(s, t);
  }

  lemma RemoveFromRoomIndex<H, C>(s: Hub<H, C>, h: H, room: RoomKey)
    requires IndexesAgree(s) && AllLive(s) && h in s.peers && s.peers[h].id in s.clients
    requires s.clients[s.peers[h].id] == h
    ensures IndexesAgree(RemoveFromRoom(s, h, room))
  {
    var t, id := RemoveFromRoom(s, h, room), s.peers[h].id;
    if room in s.rooms { DropMemberPairs(s.rooms, room, id); }
    forall i, r
      ensures Joined(t.clients, t.peers, i, r) <==> Joined(s.clients, s.peers, i, r) && !(r == room && i == id)
    {
      if i in s.clients && s.clients[i] == h { assert Live(s.clients, s.peers, s.chans, i); }
    }
    forall r, i ensures Listed(t.rooms, r, i) <==> Listed(s.rooms, r, i) && !(r == room && i == id) { }
  }

  lemma RemoveFromRoomKeeps<H, C>(s: Hub<H, C>, h: H, room: RoomKey)
    requires Inv(s) && h in s.peers && s.peers[h].id in s.clients && s.clients[s.peers[h].id] == h
    ensures Inv(RemoveFromRoom(s, h, room))
  {
    RemoveFromRoomIndex(s, h, room);
    var t := RemoveFromRoom(s, h, room);
    if room in s.rooms { DropMemberPairs(s.rooms, room, s.peers[h].id); }
    forall r, i | r in t.rooms && i in t.rooms[r] ensures t.rooms[r][i] in t.peers {
      assert Listed(t.rooms, r, i) && Listed(s.rooms, r, i) && Filed(s, s.rooms[r][i]);
    }
    RoomChangeKeeps(s, t);
  }

  lemma DropMemberPairs<H>(rooms: map<RoomKey, map<string, H>>, room: RoomKey, id: string)
    requires room in rooms
    ensures var out := DropMember(rooms, room, id);
            && (forall r, i :: Listed(out, r, i) <==> Listed(rooms, r, i) && !(r == room && i == id))
            && (forall r, i :: Listed(out, r, i) ==> out[r][i] == rooms[r][i])
            && (NoEmptyRoom(rooms) ==> NoEmptyRoom(out))
  {
    var out := DropMember(rooms, room, id);
    var left := rooms[room] - {id};
    assert forall i :: i in left <==> i in rooms[room] && i != id;
    forall r, i ensures Listed(out, r, i) <==> Listed(rooms, r, i) && !(r == room && i == id) { }
    if NoEmptyRoom(rooms) {
      forall r | r in out ensures exists i :: Listed(out, r, i) {
        if r == room {
          assert left.Keys != {};
          var i :| i in left;
          assert Listed(out, r, i);
        } else {
          var i :| Listed(rooms, r, i);
          assert Listed(out, r, i);
        }
      }
    }
  }

  lemma DropMembersPairs<H>(rooms: map<RoomKey, map<string, H>>, gone: set<RoomKey>, id: string)
    ensures var out := DropMembers(rooms, gone, id);
            && (forall r, i :: Listed(out, r, i) <==> Listed(rooms, r, i) && !(r in gone && i == id))
            && (forall r, i :: Listed(out, r, i) ==> out[r][i] == rooms[r][i])
            && (NoEmptyRoom(rooms) ==> NoEmptyRoom(out))
  {
    var out := DropMembers(rooms, gone, id);
    forall r, i ensures Listed(out, r, i) <==> Listed(rooms, r, i) && !(r in gone && i == id) {
      if r in rooms && i in rooms[r] && i != id { assert i in rooms[r] - {id}; }
    }
    if NoEmptyRoom(rooms) {
      forall r | r in out ensures exists i :: Listed(out, r, i) {
        if r in gone {
          assert (rooms[r] - {id}).Keys != {};
          var i :| i in rooms[r] - {id};
          assert Listed(out, r, i);
        } else {
          var i :| Listed(rooms, r, i);
          assert Listed(out, r, i);
        }
      }
    }
  }

  /** The hub after a registered client left both indexes and before its channel is closed. */
  function Withdrawn<H, C>(s: Hub<H, C>, h: H): Hub<H, C>
    requires h in s.peers
  {
    var p := s.peers[h];
    s.(clients := s.clients - {p.id}, rooms := DropMembers(s.rooms, p.rooms, p.id))
  }

  lemma WithdrawnIndex<H, C>(s: Hub<H, C>, h: H)
    requires IndexesAgree(s) && h in s.peers && s.peers[h].id in s.clients && s.clients[s.peers[h].id] == h
    ensures IndexesAgree(Withdrawn(s, h))
  {
    var t, p := Withdrawn(s, h), s.peers[h];
    DropMembersPairs(s.rooms, p.rooms, p.id);
    forall r, i
      ensures Listed(t.rooms, r, i) <==> Listed(s.rooms, r, i) && i != p.id
      ensures Joined(t.clients, t.peers, i, r) <==> Joined(s.clients, s.peers, i, r) && i != p.id
    {
      assert Listed(s.rooms, r, p.id) <==> Joined(s.clients, s.peers, p.id, r);
    }
  }

  lemma WithdrawnKeeps<H, C>(s: Hub<H, C>, h: H)
    requires Inv(s) && h in s.peers && s.peers[h].id in s.clients && s.clients[s.peers[h].id] == h
    ensures Inv(Withdrawn(s, h))
  {
    var t, p := Withdrawn(s, h), s.peers[h];
    WithdrawnIndex(s, h);
    DropMembersPairs(s.rooms, p.rooms, p.id);
    forall i | i in t.clients ensures Live(t.clients, t.peers, t.chans, i) && Filed(t, t.clients[i]) {
      assert Live(s.clients, s.peers, s.chans, i);
    }
    forall g | g in t.peers ensures Filed(t, g) { assert Filed(s, g); }
    forall r, i | r in t.rooms && i in t.rooms[r] ensures t.rooms[r][i] in t.peers {
      assert Listed(t.rooms, r, i) && Listed(s.rooms, r, i) && Filed(s, s.rooms[r][i]);
    }
    CardinalityDrops(s.clients, p.id);
  }

  /** Teardown of the registered client object, or of one that is no longer registered, keeps everything. */
  lemma RemoveRegisteredKeeps<H, C>(s: Hub<H, C>, h: H)
    requires Inv(s) && h in s.peers
    ensures Inv(RemoveClient(s, h))
    ensures s.peers[h].id !in RemoveClient(s, h).clients
  {
    var p := s.peers[h];
    if p.id in s.clients {
      assert Live(s.clients, s.peers, s.chans, p.id);
      assert s.clients[p.id] == h;
      WithdrawnKeeps(s, h);
      CloseSendKeeps(Withdrawn(s, h), h);
    }
  }

  lemma CardinalityDrops<H>(m: map<string, H>, i: string)
    requires i in m
    ensures |m - {i}| == |m| - 1
  {
  }

  /** Closing the channel of a client that is no longer registered touches nobody else's. */
  lemma CloseSendKeeps<H, C>(s: Hub<H, C>, h: H)
    requires Inv(s) && h in s.peers && s.peers[h].id !in s.clients
    requires Filed(s, h) && !s.peers[h].closed && !s.chans[s.peers[h].send].closed
    ensures Inv(CloseSend(s, h))
  {
    var t := CloseSend(s, h);
    forall i | i in s.clients ensures Live(t.clients, t.peers, t.chans, i) && s.clients[i] != h {
      assert Live(s.clients, s.peers, s.chans, i);
    }
    PeersClosedIndex(s, t);
    forall g | g in t.peers ensures Filed(t, g) { assert Filed(s, g); }
    KnownAfter(s, t);
  }

  /** Marking client objects closed, or changing channels, does not touch the indexes. */
  lemma PeersClosedIndex<H, C>(s: Hub<H, C>, t: Hub<H, C>)
    requires IndexesAgree(s) && t.rooms == s.rooms && t.clients == s.clients && t.peers.Keys == s.peers.Keys
    requires forall h :: h in s.peers ==> t.peers[h].rooms == s.peers[h].rooms
    ensures IndexesAgree(t)
  {
  }

  lemma DeliverKeeps<H, C>(s: Hub<H, C>, targets: set<C>, msg: string)
    requires Inv(s) && forall c :: c in targets ==> c in s.chans && !s.chans[c].closed
    ensures Inv(Deliver(s, targets, msg))
  {
  }

  /** Every channel a room broadcast reaches belongs to a registered client, so it is open. */
  lemma MemberIsOpen<H, C>(s: Hub<H, C>, r: RoomKey, i: string)
    requires Inv(s) && r in s.rooms && i in s.rooms[r]
    ensures Filed(s, s.rooms[r][i]) && !s.chans[s.peers[s.rooms[r][i]].send].closed
    ensures i in s.clients && s.rooms[r][i] == s.clients[i] && r in s.peers[s.clients[i]].rooms
  {
    assert Listed(s.rooms, r, i);
    assert Joined(s.clients, s.peers, i, r);
    assert Live(s.clients, s.peers, s.chans, i);
  }

  lemma MembersAreOpen<H, C>(s: Hub<H, C>, room: RoomKey)
    requires Inv(s)
    ensures forall c :: c in MemberChannels(s, room) ==> c in s.chans && !s.chans[c].closed
  {
    forall i | i in MembersOf(s, room) { MemberIsOpen(s, room, i); }
  }

  lemma MatchingAreOpen<H, C>(s: Hub<H, C>, org: Uuid, channel: string)
    requires Inv(s)
    ensures forall c :: c in MatchingChannels(s, org, channel) ==> c in s.chans && !s.chans[c].closed
  {
    forall c | c in MatchingChannels(s, org, channel) ensures c in s.chans && !s.chans[c].closed {
      var r, i :| r in s.rooms && MatchesOrgChannel(r, org, channel) && i in s.rooms[r] &&
        s.peers[s.rooms[r][i]].send == c;
      MemberIsOpen(s, r, i);
    }
  }

  lemma CloseKeeps<H, C>(s: Hub<H, C>)
    requires Inv(s)
    ensures Inv(CloseHub(s)) && CloseHub(s).closed
    ensures forall i :: i in s.clients ==>
      Filed(s, s.clients[i]) && CloseHub(s).chans[s.peers[s.clients[i]].send].closed
  {
  }

  lemma SubscribeKeeps<H, C>(s: Hub<H, C>, id: string, channel: string)
    requires Inv(s)
    ensures Inv(Subscribe(s, id, channel).0)
    ensures Inv(Unsubscribe(s, id, channel).0)
  {
    if id in s.clients {
      assert Live(s.clients, s.peers, s.chans, id);
      var p := s.peers[s.clients[id]];
      if BuildRoomKey(p.org, p.app, channel).Some? {
        AddToRoomKeeps(s, s.clients[id], BuildRoomKey(p.org, p.app, channel).value);
        RemoveFromRoomKeeps(s, s.clients[id], BuildRoomKey(p.org, p.app, channel).value);
      }
    }
  }

  lemma SendKeeps<H, C>(s: Hub<H, C>, id: string, msg: string)
    requires Inv(s)
    ensures Inv(SendToClient(s, id, msg))
  {
    if id in s.clients {
      assert Live(s.clients, s.peers, s.chans, id);
      DeliverKeeps(s, {s.peers[s.clients[id]].send}, msg);
    }
  }

  lemma BroadcastKeeps<H, C>(s: Hub<H, C>, room: RoomKey, msg: string)
    requires Inv(s)
    ensures Inv(Broadcast(s, room, msg))
  {
    MembersAreOpen(s, room);
    DeliverKeeps(s, MemberChannels(s, room), msg);
  }

  lemma BroadcastOrgKeeps<H, C>(s: Hub<H, C>, org: Uuid, channel: string, msg: string)
    requires Inv(s)
    ensures Inv(BroadcastToOrganization(s, org, channel, msg))
  {
    MatchingAreOpen(s, org, channel);
    DeliverKeeps(s, MatchingChannels(s, org, channel), msg);
  }

  lemma StepKeeps<H, C>(s: Hub<H, C>, op: Op<H, C>)
    requires Inv(s) && Enabled(s, op)
    ensures Inv(Step(s, op))
  {
    match op
    case OpRegister(h, c, cap, id, org, app) => RegisterKeeps(s, h, c, cap, id, org, app);
    case OpSubscribe(id, channel) => SubscribeKeeps(s, id, channel);
    case OpUnsubscribe(id, channel) => SubscribeKeeps(s, id, channel);
    case OpUnregister(h) => RemoveRegisteredKeeps(s, h);
    case OpSend(id, msg) => SendKeeps(s, id, msg);
    case OpBroadcast(room, msg) => BroadcastKeeps(s, room, msg);
    case OpBroadcastOrg(org, channel, msg) => BroadcastOrgKeeps(s, org, channel, msg);
    case OpDrain(c) => ChansGrow(s, Drain(s, c).chans);
    case OpClose => CloseKeeps(s);
  }

  // -------------------------------------------------- known objects stay known

  /** t is s after a teardown of this id and these rooms; objects and channels only ever become closed. */
  ghost predicate TornDown<H, C>(s: Hub<H, C>, t: Hub<H, C>, id: string, rooms: set<RoomKey>) {
    && t.rooms == DropMembers(s.rooms, rooms, id) && t.clients == s.clients - {id}
    && t.peers.Keys == s.peers.Keys && t.chans.Keys == s.chans.Keys
    && forall g :: g in s.peers ==> t.peers[g].rooms == s.peers[g].rooms && t.peers[g].send == s.peers[g].send
  }

  lemma CloseSendOnlyCloses<H, C>(s: Hub<H, C>, h: H)
    requires Filed(s, h)
    ensures var t := CloseSend(s, h);
      && t.rooms == s.rooms && t.clients == s.clients && t.peers.Keys == s.peers.Keys && t.chans.Keys == s.chans.Keys
      && forall g :: g in s.peers ==> t.peers[g].rooms == s.peers[g].rooms && t.peers[g].send == s.peers[g].send
  {
  }

  lemma RemoveTearsDown<H, C>(s: Hub<H, C>, h: H)
    requires Known(s) && h in s.peers && s.peers[h].id in s.clients
    ensures TornDown(s, RemoveClient(s, h), s.peers[h].id, s.peers[h].rooms)
  {
    var p := s.peers[h];
    assert Filed(s, h);
    CloseSendOnlyCloses(s.(clients := s.clients - {p.id}, rooms := DropMembers(s.rooms, p.rooms, p.id)), h);
  }

  lemma TornDownKnown<H, C>(s: Hub<H, C>, t: Hub<H, C>, id: string, rooms: set<RoomKey>)
    requires Known(s) && TornDown(s, t, id, rooms)
    ensures Known(t)
  {
    forall g | g in t.peers ensures Filed(t, g) { assert Filed(s, g); }
    forall r, i | r in t.rooms && i in t.rooms[r] ensures Filed(t, t.rooms[r][i]) { assert Filed(s, s.rooms[r][i]); }
    forall i | i in t.clients ensures Filed(t, t.clients[i]) { assert Filed(s, s.clients[i]); }
  }

  lemma RemoveKnown<H, C>(s: Hub<H, C>, h: H)
    requires Known(s) && h in s.peers
    ensures Known(RemoveClient(s, h))
  {
    if s.peers[h].id in s.clients {
      RemoveTearsDown(s, h);
      TornDownKnown(s, RemoveClient(s, h), s.peers[h].id, s.peers[h].rooms);
    }
  }

  /** Nothing but queues and closed marks changed. */
  ghost predicate SameTables<H, C>(s: Hub<H, C>, t: Hub<H, C>) {
    t.clients == s.clients && t.rooms == s.rooms && t.peers == s.peers && t.chans.Keys >= s.chans.Keys
  }

  lemma SameTablesKnown<H, C>(s: Hub<H, C>, t: Hub<H, C>)
    requires Known(s) && SameTables(s, t)
    ensures Known(t)
  {
    forall h | Filed(s, h) ensures Filed(t, h) { }
  }

  lemma EnrolKnown<H, C>(s: Hub<H, C>, h: H, c: C, ch: Chan, id: string, org: Uuid, app: Uuid)
    requires Known(s) && h !in s.peers
    ensures Known(Enrol(s, h, c, ch, id, org, app))
  {
    var t := Enrol(s, h, c, ch, id, org, app);
    forall g | Filed(s, g) ensures Filed(t, g) { }
    assert Filed(t, h);
  }

  lemma RoomKnown<H, C>(s: Hub<H, C>, h: H, room: RoomKey)
    requires Known(s) && h in s.peers
    ensures Known(AddToRoom(s, h, room)) && Known(RemoveFromRoom(s, h, room))
  {
    var t, u := AddToRoom(s, h, room), RemoveFromRoom(s, h, room);
    assert Filed(s, h);
    forall g | Filed(s, g) ensures Filed(t, g) && Filed(u, g) { }
  }

  lemma RegisterKnown<H, C>(s: Hub<H, C>, h: H, c: C, ch: Chan, id: string, org: Uuid, app: Uuid)
    requires Known(s) && h !in s.peers
    ensures Known(Register(s, h, c, ch, id, org, app).0)
  {
    if !s.closed && |s.clients| < s.max {
      EnrolKnown(s, h, c, ch, id, org, app);
      RoomKnown(Enrol(s, h, c, ch, id, org, app), h, FormatKey(org, app, DEFAULT_CHANNEL));
    } else {
      SameTablesKnown(s, Register(s, h, c, ch, id, org, app).0);
    }
  }

  lemma SubscribeKnown<H, C>(s: Hub<H, C>, id: string, channel: string)
    requires Known(s)
    ensures Known(Subscribe(s, id, channel).0) && Known(Unsubscribe(s, id, channel).0)
  {
    if id in s.clients {
      var p := s.peers[s.clients[id]];
      var room := BuildRoomKey(p.org, p.app, channel);
      if room.Some? { RoomKnown(s, s.clients[id], room.value); }
    }
  }

  lemma CloseKnown<H, C>(s: Hub<H, C>)
    requires Known(s)
    ensures Known(CloseHub(s))
  {
    var t := CloseHub(s);
    forall g | g in t.peers ensures Filed(t, g) { assert Filed(s, g); }
  }

  lemma DeliverKnown<H, C>(s: Hub<H, C>, targets: set<C>, msg: string)
    requires Known(s)
    ensures Known(Deliver(s, targets, msg))
  {
    SameTablesKnown(s, Deliver(s, targets, msg));
  }

  lemma SendsKnown<H, C>(s: Hub<H, C>, id: string, msg: string)
    requires Known(s)
    ensures Known(SendToClient(s, id, msg))
  {
    if id in s.clients { DeliverKnown(s, {s.peers[s.clients[id]].send}, msg); }
  }

  lemma BroadcastKnown<H, C>(s: Hub<H, C>, room: RoomKey, msg: string)
    requires Known(s)
    ensures Known(Broadcast(s, room, msg))
  {
    DeliverKnown(s, MemberChannels(s, room), msg);
  }

  lemma BroadcastOrgKnown<H, C>(s: Hub<H, C>, org: Uuid, channel: string, msg: string)
    requires Known(s)
    ensures Known(BroadcastToOrganization(s, org, channel, msg))
  {
    DeliverKnown(s, MatchingChannels(s, org, channel), msg);
  }

  /** Every operation the environment may issue leaves the hub with objects that were made. */
  lemma StepKnown<H, C>(s: Hub<H, C>, op: Op<H, C>)
    requires Known(s) && Enabled(s, op)
    ensures Known(Step(s, op))
  {
    match op
    case OpRegister(h, c, cap, id, org, app) => RegisterKnown(s, h, c, Chan(cap, [], false), id, org, app);
    case OpSubscribe(id, channel) => SubscribeKnown(s, id, channel);
    case OpUnsubscribe(id, channel) => SubscribeKnown(s, id, channel);
    case OpUnregister(h) => RemoveKnown(s, h);
    case OpSend(id, msg) => SendsKnown(s, id, msg);
    case OpBroadcast(room, msg) => BroadcastKnown(s, room, msg);
    case OpBroadcastOrg(org, channel, msg) => BroadcastOrgKnown(s, org, channel, msg);
    case OpDrain(c) => SameTablesKnown(s, Drain(s, c));
    case OpClose => CloseKnown(s);
  }

  /** Whether every operation of a run is one the environment may issue at that point. */
  ghost predicate Lawful<H, C>(s: Hub<H, C>, ops: seq<Op<H, C>>)
    requires Known(s)
    decreases |ops|
  {
    ops == [] || (Enabled(s, ops[0]) && (StepKnown(s, ops[0]); Lawful(Step(s, ops[0]), ops[1..])))
  }

  ghost function Run<H, C>(s: Hub<H, C>, ops: seq<Op<H, C>>): Hub<H, C>
    requires Known(s) && Lawful(s, ops)
    decreases |ops|
  {
    if ops == [] then s else
      StepKnown(s, ops[0]);
      Run(Step(s, ops[0]), ops[1..])
  }

  lemma {:induction false} RunKeeps<H, C>(s: Hub<H, C>, ops: seq<Op<H, C>>)
    requires Inv(s) && Lawful(s, ops)
    ensures Inv(Run(s, ops))
    decreases |ops|
  {
    if ops != [] {
      StepKeeps(s, ops[0]);
      RunKeeps(Step(s, ops[0]), ops[1..]);
    }
  }

  /** Main result. From a new hub, after any operations in any order: the two indexes agree, no room is empty, the
      connection cap holds, and nothing was ever sent on, or closed on, a closed channel. */
  lemma HubIsSafe<H, C>(maxConnections: int, ops: seq<Op<H, C>>)
    requires Lawful(NewHub<H, C>(maxConnections), ops)
    ensures var t := Run(NewHub<H, C>(maxConnections), ops);
            && Known(t) && IndexesAgree(t)
            && |t.clients| <= t.max == (if maxConnections <= 0 then 1000 else maxConnections)
            && !t.panicked
  {
    RunKeeps(NewHub<H, C>(maxConnections), ops);
    MaxIsFixed(NewHub<H, C>(maxConnections), ops);
  }

  lemma {:induction false} MaxIsFixed<H, C>(s: Hub<H, C>, ops: seq<Op<H, C>>)
    requires Known(s) && Lawful(s, ops)
    ensures Run(s, ops).max == s.max
    decreases |ops|
  {
    if ops != [] {
      StepKnown(s, ops[0]);
      StepKeepsMax(s, ops[0]);
      MaxIsFixed(Step(s, ops[0]), ops[1..]);
    }
  }

  lemma StepKeepsMax<H, C>(s: Hub<H, C>, op: Op<H, C>)
    requires Known(s) && Enabled(s, op)
    ensures Step(s, op).max == s.max
  {
    match op
    case OpUnregister(h) => RemoveKeepsMax(s, h);
    case OpClose => CloseHubKeepsMax(s);
    case _ =>
  }

  lemma RemoveKeepsMax<H, C>(s: Hub<H, C>, h: H)
    requires Known(s) && h in s.peers
    ensures RemoveClient(s, h).max == s.max
  {
  }

  lemma CloseHubKeepsMax<H, C>(s: Hub<H, C>)
    requires Known(s)
    ensures CloseHub(s).max == s.max
  {
  }

  ghost predicate ClosedIn<H, C>(s: Hub<H, C>, c: C) { c in s.chans && s.chans[c].closed }

  lemma RemoveKeepsClosed<H, C>(s: Hub<H, C>, h: H, c: C)
    requires Known(s) && h in s.peers && ClosedIn(s, c)
    ensures ClosedIn(RemoveClient(s, h), c)
  {
  }

  lemma DeliverKeepsClosed<H, C>(s: Hub<H, C>, targets: set<C>, msg: string, c: C)
    requires ClosedIn(s, c)
    ensures ClosedIn(Deliver(s, targets, msg), c)
  {
  }

  lemma CloseHubKeepsClosed<H, C>(s: Hub<H, C>, c: C)
    requires Known(s) && ClosedIn(s, c)
    ensures ClosedIn(CloseHub(s), c)
  {
  }

  lemma StepKeepsClosed<H, C>(s: Hub<H, C>, op: Op<H, C>, c: C)
    requires Known(s) && Enabled(s, op) && ClosedIn(s, c)
    ensures ClosedIn(Step(s, op), c)
  {
    match op
    case OpUnregister(h) => RemoveKeepsClosed(s, h, c);
    case OpSend(id, msg) => if id in s.clients { DeliverKeepsClosed(s, {s.peers[s.clients[id]].send}, msg, c); }
    case OpBroadcast(room, msg) => DeliverKeepsClosed(s, MemberChannels(s, room), msg, c);
    case OpBroadcastOrg(org, channel, msg) => DeliverKeepsClosed(s, MatchingChannels(s, org, channel), msg, c);
    case OpClose => CloseHubKeepsClosed(s, c);
    case OpRegister(h, d, cap, id, org, app) => assert c != d;
    case _ =>
  }

  /** A channel closed at any point of a run is never open again, so with HubIsSafe each channel is closed at
      most once and a client that was disconnected is never written to. */
  lemma {:induction false} ClosedStaysClosed<H, C>(s: Hub<H, C>, ops: seq<Op<H, C>>, c: C)
    requires Known(s) && Lawful(s, ops) && ClosedIn(s, c)
    ensures ClosedIn(Run(s, ops), c)
    decreases |ops|
  {
    if ops != [] {
      StepKnown(s, ops[0]);
      StepKeepsClosed(s, ops[0], c);
      ClosedStaysClosed(Step(s, ops[0]), ops[1..], c);
    }
  }

  // -------------------------------------------------- organization broadcast

  lemma AddOwn<H, C>(peers: map<H, Client<C>>, h: H, p: Client<C>)
    requires RoomsAreOwn(peers)
    requires forall r :: r in p.rooms ==> InOwnRoom(p.org, p.app, r)
    ensures RoomsAreOwn(peers[h := p])
  {
  }

  lemma EnrolInKeepsOwn<H, C>(s: Hub<H, C>, h: H, c: C, ch: Chan, id: string, org: Uuid, app: Uuid,
      room: RoomKey)
    requires RoomsAreOwn(s.peers) && InOwnRoom(org, app, room)
    ensures RoomsAreOwn(EnrolIn(s, h, c, ch, id, org, app, room).peers)
  {
  }

  lemma RegisterKeepsOwn<H, C>(s: Hub<H, C>, h: H, c: C, ch: Chan, id: string, org: Uuid, app: Uuid)
    requires RoomsAreOwn(s.peers)
    ensures RoomsAreOwn(Register(s, h, c, ch, id, org, app).0.peers)
  {
    EventsIsValid();
    assert InOwnRoom(org, app, FormatKey(org, app, DEFAULT_CHANNEL));
    EnrolInKeepsOwn(s, h, c, ch, id, org, app, FormatKey(org, app, DEFAULT_CHANNEL));
  }

  lemma SubscribeKeepsOwn<H, C>(s: Hub<H, C>, id: string, channel: string)
    requires Known(s) && RoomsAreOwn(s.peers)
    ensures RoomsAreOwn(Subscribe(s, id, channel).0.peers)
    ensures RoomsAreOwn(Unsubscribe(s, id, channel).0.peers)
  {
  }

  lemma RemoveKeepsOwn<H, C>(s: Hub<H, C>, h: H)
    requires Known(s) && h in s.peers && RoomsAreOwn(s.peers)
    ensures RoomsAreOwn(RemoveClient(s, h).peers)
  {
    AddOwn(s.peers, h, s.peers[h].(closed := true));
  }

  lemma StepKeepsOwn<H, C>(s: Hub<H, C>, op: Op<H, C>)
    requires Known(s) && Enabled(s, op) && RoomsAreOwn(s.peers)
    ensures RoomsAreOwn(Step(s, op).peers)
  {
    match op
    case OpRegister(h, c, cap, id, org, app) => RegisterKeepsOwn(s, h, c, Chan(cap, [], false), id, org, app);
    case OpSubscribe(id, channel) => SubscribeKeepsOwn(s, id, channel);
    case OpUnsubscribe(id, channel) => SubscribeKeepsOwn(s, id, channel);
    case OpUnregister(h) => RemoveKeepsOwn(s, h);
    case OpClose => CloseKeepsOwn(s);
    case _ => assert Step(s, op).peers == s.peers;
  }

  lemma CloseKeepsOwn<H, C>(s: Hub<H, C>)
    requires Known(s) && RoomsAreOwn(s.peers)
    ensures RoomsAreOwn(CloseHub(s).peers)
  {
  }

  /** After any run, every room a client is in is one of its own organization and app. */
  lemma {:induction false} RunKeepsOwn<H, C>(s: Hub<H, C>, ops: seq<Op<H, C>>)
    requires Known(s) && Lawful(s, ops) && RoomsAreOwn(s.peers)
    ensures RoomsAreOwn(Run(s, ops).peers)
    decreases |ops|
  {
    if ops != [] {
      StepKnown(s, ops[0]);
      StepKeepsOwn(s, ops[0]);
      RunKeepsOwn(Step(s, ops[0]), ops[1..]);
    }
  }


  /** Registered, of that organization, and subscribed to that channel. */
  ghost predicate Addressed<H, C>(s: Hub<H, C>, i: string, org: Uuid, channel: string)
    requires Known(s)
  {
    i in s.clients &&
    var p := s.peers[s.clients[i]];
    p.org == org && ValidChannel(channel) && FormatKey(org, p.app, channel) in p.rooms
  }

  lemma RoomOfMember<H, C>(s: Hub<H, C>, r: RoomKey, i: string, org: Uuid, channel: string)
    requires Inv(s) && RoomsAreOwn(s.peers) && r in s.rooms && i in s.rooms[r]
    ensures MatchesOrgChannel(r, org, channel) ==> Addressed(s, i, org, channel)
    ensures MatchesOrgChannel(r, org, channel) ==> r == FormatKey(org, s.peers[s.clients[i]].app, channel)
  {
    MemberIsOpen(s, r, i);
    var p := s.peers[s.clients[i]];
    assert InOwnRoom(p.org, p.app, r);
    var name :| ValidChannel(name) && r == FormatKey(p.org, p.app, name);
    MatchIsFieldEquality(p.org, p.app, name, org, channel);
  }

  lemma MatchingIsAddressed<H, C>(s: Hub<H, C>, org: Uuid, channel: string, c: C)
    requires Inv(s) && RoomsAreOwn(s.peers)
    ensures c in MatchingChannels(s, org, channel) <==>
      exists i :: Addressed(s, i, org, channel) && s.peers[s.clients[i]].send == c
  {
    if c in MatchingChannels(s, org, channel) {
      var r, i :| r in s.rooms && MatchesOrgChannel(r, org, channel) && i in s.rooms[r] &&
        s.peers[s.rooms[r][i]].send == c;
      RoomOfMember(s, r, i, org, channel);
      MemberIsOpen(s, r, i);
    }
    if i :| Addressed(s, i, org, channel) && s.peers[s.clients[i]].send == c {
      AddressedIsListed(s, i, org, channel);
    }
  }

  lemma AddressedIsListed<H, C>(s: Hub<H, C>, i: string, org: Uuid, channel: string)
    requires Inv(s) && Addressed(s, i, org, channel)
    ensures s.peers[s.clients[i]].send in MatchingChannels(s, org, channel)
  {
    var p := s.peers[s.clients[i]];
    var r := FormatKey(org, p.app, channel);
    MatchIsFieldEquality(org, p.app, channel, org, channel);
    assert Joined(s.clients, s.peers, i, r) && Listed(s.rooms, r, i);
    assert s.rooms[r][i] == s.clients[i];
  }

  /** An organization broadcast makes one attempt on the channel of every addressed client, and none on any other
      channel: string matching on room keys selects exactly by organization and channel. */
  lemma OrgBroadcastReachesExactly<H, C>(s: Hub<H, C>, org: Uuid, channel: string, msg: string)
    requires Inv(s) && RoomsAreOwn(s.peers)
    ensures var t := BroadcastToOrganization(s, org, channel, msg);
            && t.chans.Keys == s.chans.Keys && t == s.(chans := t.chans)
            && forall c :: c in s.chans ==>
                 t.chans[c] == (if exists i :: Addressed(s, i, org, channel) && s.peers[s.clients[i]].send == c
                                then Offer(s.chans[c], msg) else s.chans[c])
  {
    forall c ensures c in MatchingChannels(s, org, channel) <==>
        exists i :: Addressed(s, i, org, channel) && s.peers[s.clients[i]].send == c {
      MatchingIsAddressed(s, org, channel, c);
    }
    MatchingAreOpen(s, org, channel);
  }

  /** A client sits in at most one of the rooms an organization broadcast walks through, so walking them all
      attempts it once. */
  lemma OneMatchingRoomPerClient<H, C>(s: Hub<H, C>, org: Uuid, channel: string, r: RoomKey, r': RoomKey, i: string)
    requires Inv(s) && RoomsAreOwn(s.peers) && r in s.rooms && r' in s.rooms && i in s.rooms[r] && i in s.rooms[r']
    requires MatchesOrgChannel(r, org, channel) && MatchesOrgChannel(r', org, channel)
    ensures r == r'
  {
    RoomOfMember(s, r, i, org, channel);
    RoomOfMember(s, r', i, org, channel);
  }

  // ------------------------------------------ teardown through another object

  /** Teardown through any client object: the indexes still agree afterwards if and only if that object's id is not
      registered, or the object remembers every room the registered client is in. */
  lemma TeardownExactly<H, C>(s: Hub<H, C>, h: H)
    requires Known(s) && IndexesAgree(s) && h in s.peers
    ensures var t := RemoveClient(s, h);
            Known(t) && (IndexesAgree(t) <==>
              s.peers[h].id !in s.clients || s.peers[s.clients[s.peers[h].id]].rooms <= s.peers[h].rooms)
  {
    var p := s.peers[h];
    if p.id in s.clients {
      var t := RemoveClient(s, h);
      var own := s.peers[s.clients[p.id]].rooms;
      DropMembersPairs(s.rooms, p.rooms, p.id);
      TeardownPairs(s, h);
      if r :| r in own && r !in p.rooms {
        assert Joined(s.clients, s.peers, p.id, r) && Listed(s.rooms, r, p.id);
        assert Listed(t.rooms, r, p.id) && !Joined(t.clients, t.peers, p.id, r);
      } else {
        forall r, i ensures Listed(t.rooms, r, i) <==> Joined(t.clients, t.peers, i, r) {
          assert Listed(s.rooms, r, i) <==> Joined(s.clients, s.peers, i, r);
        }
        assert SameObjects(t);
      }
    }
  }

  lemma TornDownPairs<H, C>(s: Hub<H, C>, t: Hub<H, C>, id: string, rooms: set<RoomKey>)
    requires Known(s) && TornDown(s, t, id, rooms)
    ensures forall i, r :: Joined(t.clients, t.peers, i, r) <==> Joined(s.clients, s.peers, i, r) && i != id
  {
  }

  /** What each index holds after a teardown through object h. */
  lemma TeardownPairs<H, C>(s: Hub<H, C>, h: H)
    requires Known(s) && h in s.peers && s.peers[h].id in s.clients
    ensures var t, p := RemoveClient(s, h), s.peers[h];
            && Known(t) && t.rooms == DropMembers(s.rooms, p.rooms, p.id) && t.clients == s.clients - {p.id}
            && forall i, r :: Joined(t.clients, t.peers, i, r) <==> Joined(s.clients, s.peers, i, r) && i != p.id
  {
    var t, p := RemoveClient(s, h), s.peers[h];
    RemoveTearsDown(s, h);
    TornDownKnown(s, t, p.id, p.rooms);
    TornDownPairs(s, t, p.id, p.rooms);
  }

  /** The hub once Session.Start has built its own object: same id, same channel, no rooms. */
  function WithPrivate<H, C>(s: Hub<H, C>, h: H, private: H): Hub<H, C>
    requires h in s.peers
  {
    s.(peers := s.peers[private := s.peers[h].(rooms := {}, closed := false)])
  }

  lemma PrivateIsKnown<H, C>(s: Hub<H, C>, h: H, private: H)
    requires Known(s) && h in s.peers && private !in s.peers
    ensures Known(WithPrivate(s, h, private))
  {
    var t := WithPrivate(s, h, private);
    assert Filed(s, h);
    forall g | g in t.peers ensures Filed(t, g) { assert g == private || Filed(s, g); }
    forall i | i in t.clients ensures Filed(t, t.clients[i]) { assert Filed(s, s.clients[i]); }
    forall r, i | r in t.rooms && i in t.rooms[r] ensures Filed(t, t.rooms[r][i]) { assert Filed(s, s.rooms[r][i]); }
  }

  /** Tearing down through the private object: the channel is closed, no room entry goes. */
  lemma PrivateTeardown<H, C>(s: Hub<H, C>, h: H, private: H)
    requires Inv(s) && private !in s.peers
    requires h in s.peers && s.peers[h].id in s.clients && s.clients[s.peers[h].id] == h
    ensures var s1 := WithPrivate(s, h, private);
            && Known(s1) && Known(RemoveClient(s1, private))
            && var s2 := RemoveClient(s1, private);
               && s2.rooms == s.rooms && s2.clients == s.clients - {s.peers[h].id} && s2.closed == s.closed
               && h in s2.peers && s2.peers[h] == s.peers[h] && ClosedIn(s2, s.peers[h].send)
  {
    var s1 := WithPrivate(s, h, private);
    PrivateIsKnown(s, h, private);
    RemoveKnown(s1, private);
    assert Live(s.clients, s.peers, s.chans, s.peers[h].id);
    DropNone(s.rooms, s.peers[h].id);
  }

  lemma DropNone<H>(rooms: map<RoomKey, map<string, H>>, id: string)
    ensures DropMembers(rooms, {}, id) == rooms
  {
  }

  /** Session.Start tears down through its private object and only then calls the closure. Whenever the registered
      client is in some room, that leaves the room entry behind, the closure no longer removes anything, and the next
      broadcast to the room sends on a closed channel. */
  lemma SessionTeardownLeavesEntry<H, C>(s: Hub<H, C>, h: H, private: H, room: RoomKey, msg: string)
    requires Inv(s) && !s.closed && private !in s.peers
    requires h in s.peers && s.peers[h].id in s.clients && s.clients[s.peers[h].id] == h && room in s.peers[h].rooms
    ensures var s1 := WithPrivate(s, h, private);
            && Known(s1) && Known(RemoveClient(s1, private)) && h in RemoveClient(s1, private).peers
            && var s2 := RemoveClient(RemoveClient(s1, private), h);
               && Known(s2) && !IndexesAgree(s2)
               && Listed(s2.rooms, room, s.peers[h].id) && s.peers[h].id !in s2.clients
               && Broadcast(s2, room, msg).panicked
  {
    PrivateTeardown(s, h, private);
    var s2, id := RemoveClient(WithPrivate(s, h, private), private), s.peers[h].id;
    assert RemoveClient(s2, h) == s2;
    assert Joined(s.clients, s.peers, id, room) && Listed(s.rooms, room, id) && s.rooms[room][id] == h;
    assert Listed(s2.rooms, room, id) && !Joined(s2.clients, s2.peers, id, room);
    assert s2.peers[MembersOf(s2, room)[id]].send in MemberChannels(s2, room);
  }
}

/** The hub itself: objects updated in place, each method proved to take exactly the step of HubSpec. */
module WebSocketHub {
  import opened Options
  import opened Rooms
  import opened HubSpec
  import opened HubSafety

  class Channel {
    const cap: nat
    var queue: seq<string>
    var closed: bool

    constructor (cap: nat)
      ensures this.cap == cap && queue == [] && !closed
    {
      this.cap := cap;
      queue, closed := [], false;
    }

    ghost function Abs(): Chan reads this { Chan(cap, queue, closed) }

    /** select { case send <- msg: default: } — sending on a closed channel would panic. */
    method TrySend(msg: string)
      requires !closed
      modifies this
      ensures Abs() == Offer(old(Abs()), msg)
    {
      if |queue| < cap { queue := queue + [msg]; }
    }

    /** close(send) — closing twice would panic. */
    method Close()
      requires !closed
      modifies this
      ensures Abs() == old(Abs()).(closed := true)
    {
      closed := true;
    }
  }

  class ClientObject {
    const id: string
    const org: Uuid
    const app: Uuid
    const send: Channel
    var rooms: set<RoomKey>
    var closed: bool

    constructor (id: string, org: Uuid, app: Uuid, send: Channel)
      ensures Abs() == Client(id, org, app, send, {}, false)
    {
      this.id, this.org, this.app, this.send := id, org, app, send;
      rooms, closed := {}, false;
    }

    ghost function Abs(): Client<Channel> reads this { Client(id, org, app, send, rooms, closed) }

    method Subscribe(room: RoomKey)
      modifies this
      ensures Abs() == old(Abs()).(rooms := old(rooms) + {room})
    {
      rooms := rooms + {room};
    }

    method Unsubscribe(room: RoomKey)
      modifies this
      ensures Abs() == old(Abs()).(rooms := old(rooms) - {room})
    {
      rooms := rooms - {room};
    }

    /** The closed flag is what keeps the channel from being closed twice. */
    method CloseSend()
      requires closed || !send.closed
      modifies this, send
      ensures Abs() == old(Abs()).(closed := true)
      ensures send.Abs() == if old(closed) then old(send.Abs()) else old(send.Abs()).(closed := true)
    {
      if !closed {
        closed := true;
        send.Close();
      }
    }
  }

  class HubObject {
    const maxConnections: nat
    var clients: map<string, ClientObject>
    var rooms: map<RoomKey, map<string, ClientObject>>
    var closed: bool
    ghost var made: set<ClientObject>
    ghost var handed: set<Channel>

    ghost function Abs(): Hub<ClientObject, Channel>
      reads this, made, handed
    {
      Hub(maxConnections, closed, clients, rooms, map c | c in made :: c.Abs(), map ch | ch in handed :: ch.Abs(),
        false)
    }

    ghost predicate Valid()
      reads this, made, handed
    {
      Inv(Abs()) && RoomsAreOwn(Abs().peers)
    }

    /** A hub that took a lawful step from a valid state is valid. */
    lemma StaysValid(s: Hub<ClientObject, Channel>, op: Op<ClientObject, Channel>)
      requires Inv(s) && RoomsAreOwn(s.peers) && Enabled(s, op) && Abs() == Step(s, op)
      ensures Valid()
    {
      StepKeeps(s, op);
      StepKeepsOwn(s, op);
    }

    lemma StillValid(s: Hub<ClientObject, Channel>)
      requires Inv(s) && RoomsAreOwn(s.peers) && s.chans.Keys <= Abs().chans.Keys && Abs() == s.(chans := Abs().chans)
      requires forall c :: c in s.chans ==> Abs().chans[c].closed == s.chans[c].closed
      ensures Valid()
    {
      ChansGrow(s, Abs().chans);
    }

    constructor (maxConnections: int)
      ensures Abs() == NewHub(maxConnections) && Valid()
    {
      this.maxConnections := if maxConnections <= 0 then 1000 else maxConnections;
      clients, rooms, closed := map[], map[], false;
      made, handed := {}, {};
    }

    method AddToRoomLocked(c: ClientObject, room: RoomKey)
      requires c in made
      modifies this`rooms, c
      ensures Abs() == AddToRoom(old(Abs()), c, room)
    {
      if room !in rooms { rooms := rooms[room := map[]]; }
      rooms := rooms[room := rooms[room][c.id := c]];
      assert rooms == old(rooms)[room := MembersOf(old(Abs()), room)[c.id := c]];
      c.Subscribe(room);
      OnePeerChanged(c);
      assert Abs().chans == old(Abs().chans);
    }

    method RemoveFromRoomLocked(c: ClientObject, room: RoomKey)
      requires c in made
      modifies this`rooms, c
      ensures Abs() == RemoveFromRoom(old(Abs()), c, room)
    {
      DropFrom(room, c.id);
      c.Unsubscribe(room);
      OnePeerChanged(c);
      assert Abs().chans == old(Abs().chans);
    }

    twostate lemma OnePeerChanged(new c: ClientObject)
      requires made == old(made) && c in made
      requires forall h :: h in made && h != c ==> h.Abs() == old(h.Abs())
      ensures Abs().peers == old(Abs().peers)[c := c.Abs()]
    {
    }

    twostate lemma OneChanChanged(new send: Channel)
      requires handed == old(handed) && send in handed
      requires forall ch :: ch in handed && ch != send ==> ch.Abs() == old(ch.Abs())
      ensures Abs().chans == old(Abs().chans)[send := send.Abs()]
    {
    }

    /** delete(members, id), and the room with it when that empties it. */
    method DropFrom(room: RoomKey, id: string)
      modifies this`rooms
      ensures rooms == DropMember(old(rooms), room, id)
    {
      if room in rooms {
        var members := rooms[room] - {id};
        rooms := if |members| == 0 then rooms - {room} else rooms[room := members];
      }
    }

    /** The part of Register that runs once there is room for the client. */
    method Admit(id: string, org: Uuid, app: Uuid, send: Channel) returns (c: ClientObject)
      requires send !in handed
      modifies this
      ensures fresh(c) && made == old(made) + {c} && handed == old(handed) + {send}
      ensures Abs() == EnrolIn(old(Abs()), c, send, send.Abs(), id, org, app, FormatKey(org, app, DEFAULT_CHANNEL))
    {
      c := Make(id, org, app, send);
      var room := DefaultRoom(org, app);
      if room.Some? { AddToRoomLocked(c, room.value); }
    }

    /** BuildRoomKey for the default channel, which cannot fail. */
    method DefaultRoom(org: Uuid, app: Uuid) returns (room: Option<RoomKey>)
      ensures room == Some(FormatKey(org, app, DEFAULT_CHANNEL))
    {
      EventsIsValid();
      ValidRoom(org, app, DEFAULT_CHANNEL);
      return BuildRoomKey(org, app, DEFAULT_CHANNEL);
    }

    /** The new client object, put under its id. */
    method Make(id: string, org: Uuid, app: Uuid, send: Channel) returns (c: ClientObject)
      requires send !in handed
      modifies this
      ensures fresh(c) && made == old(made) + {c} && handed == old(handed) + {send}
      ensures Abs() == Enrol(old(Abs()), c, send, send.Abs(), id, org, app)
    {
      c := new ClientObject(id, org, app, send);
      clients := clients[id := c];
      made, handed := made + {c}, handed + {send};
      assert Abs().peers == old(Abs().peers)[c := c.Abs()];
      assert Abs().chans == old(Abs().chans)[send := send.Abs()];
    }

    /** Register returns the object its closure will remove, or null when the closure does nothing. */
    method Register(id: string, org: Uuid, app: Uuid, send: Channel) returns (c: ClientObject?)
      requires Valid() && send !in handed && !send.closed && send.queue == []
      requires forall g :: g in made ==> g.id != id
      modifies this, send
      ensures Valid()
      ensures c != null ==> fresh(c) && c in made
      ensures c == null && old(closed) ==> Abs() == old(Abs())
      ensures c == null && !old(closed) ==>
        Abs() == CloseChan(old(Abs().(chans := Abs().chans[send := send.Abs()])), send) &&
          |old(clients)| >= maxConnections
      ensures c != null ==>
        (Abs(), true) == HubSpec.Register(old(Abs()), c, send, old(send.Abs()), id, org, app)
    {
      if closed { return null; }
      if |clients| >= maxConnections {
        Refuse(send);
        StillValid(old(Abs()));
        return null;
      }
      c := Admit(id, org, app, send);
      StaysValid(old(Abs()), OpRegister(c, send, send.cap, id, org, app));
    }

    /** At the cap the new channel is closed and nobody is registered. */
    method Refuse(send: Channel)
      requires send !in handed && !send.closed
      modifies this`handed, send
      ensures Abs() == CloseChan(old(Abs().(chans := Abs().chans[send := send.Abs()])), send)
      ensures made == old(made) && handed == old(handed) + {send}
    {
      handed := handed + {send};
      send.Close();
      assert Abs().chans == old(Abs().chans[send := send.Abs()][send := send.Abs().(closed := true)]);
    }

    method Subscribe(id: string, channel: string) returns (ok: bool)
      requires Valid()
      modifies this`rooms, made
      ensures Valid()
      ensures (Abs(), ok) == HubSpec.Subscribe(old(Abs()), id, channel)
    {
      if id !in clients { return false; }
      var c := clients[id];
      assert Filed(Abs(), c);
      var room := BuildRoomKey(c.org, c.app, channel);
      if room.None? { return false; }
      AddToRoomLocked(c, room.value);
      StaysValid(old(Abs()), OpSubscribe(id, channel));
      return true;
    }

    method Unsubscribe(id: string, channel: string) returns (ok: bool)
      requires Valid()
      modifies this`rooms, made
      ensures Valid()
      ensures (Abs(), ok) == HubSpec.Unsubscribe(old(Abs()), id, channel)
    {
      if id !in clients { return false; }
      var c := clients[id];
      assert Filed(Abs(), c);
      var room := BuildRoomKey(c.org, c.app, channel);
      if room.None? { return false; }
      RemoveFromRoomLocked(c, room.value);
      StaysValid(old(Abs()), OpUnsubscribe(id, channel));
      return true;
    }

    /** for room := range c.rooms: leave it. */
    method LeaveRooms(gone: set<RoomKey>, id: string)
      modifies this`rooms
      ensures rooms == DropMembers(old(rooms), gone, id)
    {
      ghost var start := rooms;
      ghost var done: set<RoomKey> := {};
      NothingDropped(start, id);
      var left := gone;
      while left != {}
        invariant done !! left && done + left == gone
        invariant rooms == DropMembers(start, done, id)
        decreases |left|
      {
        var room :| room in left;
        DropFrom(room, id);
        DropOneMore(start, done, room, id);
        left, done := left - {room}, done + {room};
      }
    }

    /** removeClient, through the closure Register returned: c is the registered object or is no longer registered. */
    method RemoveClient(c: ClientObject)
      requires Valid() && c in made
      modifies this`clients, this`rooms, c, c.send
      ensures Valid()
      ensures Abs() == HubSpec.RemoveClient(old(Abs()), c)
    {
      RegisteredIsOpen(Abs(), c);
      if c.id in clients { TearDown(c); }
      StaysValid(old(Abs()), OpUnregister(c));
    }

    method TearDown(c: ClientObject)
      requires c in made && c.send in handed && !c.closed && !c.send.closed
      modifies this`clients, this`rooms, c, c.send
      ensures Abs() == CloseSend(Withdrawn(old(Abs()), c), c)
    {
      clients := clients - {c.id};
      LeaveRooms(c.rooms, c.id);
      c.CloseSend();
      OnePeerChanged(c);
      OneChanChanged(c.send);
    }

    /** for _, c := range members: one non-blocking send each. */
    method SendToMembers(members: map<string, ClientObject>, msg: string, ghost sends: set<Channel>)
      requires sends == set i | i in members :: members[i].send
      requires forall i :: i in members ==> !members[i].send.closed
      requires forall i, j :: i in members && j in members && i != j ==> members[i].send != members[j].send
      modifies sends
      ensures forall i :: i in members ==> members[i].send.Abs() == Offer(old(members[i].send.Abs()), msg)
    {
      var left := members.Keys;
      while left != {}
        invariant left <= members.Keys
        invariant forall i :: i in members ==>
          members[i].send.Abs() == if i in left then old(members[i].send.Abs())
            else Offer(old(members[i].send.Abs()), msg)
        decreases |left|
      {
        var i :| i in left;
        members[i].send.TrySend(msg);
        left := left - {i};
      }
    }

    /** The members of a room can be sent to: known, open, and each with a channel of its own. */
    ghost predicate Sendable(room: RoomKey)
      reads this, handed
    {
      room in rooms ==>
        && (forall i :: i in rooms[room] ==> rooms[room][i].send in handed && !rooms[room][i].send.closed)
        && (forall i, j :: i in rooms[room] && j in rooms[room] && i != j ==>
              rooms[room][i].send != rooms[room][j].send)
    }

    ghost predicate Member(room: RoomKey, ch: Channel)
      reads this
    {
      room in rooms && exists i :: i in rooms[room] && rooms[room][i].send == ch
    }

    /** One non-blocking send to every member of the room. */
    method BroadcastLocked(room: RoomKey, msg: string)
      requires Sendable(room)
      modifies handed
      ensures closed ==> unchanged(handed)
      ensures !closed ==> forall ch :: ch in handed ==>
        ch.Abs() == if Member(room, ch) then Offer(old(ch.Abs()), msg) else old(ch.Abs())
    {
      if closed || room !in rooms { return; }
      SendToMembers(rooms[room], msg, set i | i in rooms[room] :: rooms[room][i].send);
    }

    method SendToClient(id: string, msg: string)
      requires Valid()
      modifies handed
      ensures Valid()
      ensures Abs() == HubSpec.SendToClient(old(Abs()), id, msg)
    {
      if id !in clients || closed { return; }
      ValidClients();
      SendOne(clients[id].send, msg);
      StaysValid(old(Abs()), OpSend(id, msg));
    }

    method SendOne(send: Channel, msg: string)
      requires send in handed && !send.closed && !closed
      modifies handed
      ensures Abs() == Deliver(old(Abs()), {send}, msg)
    {
      ghost var sends := {send};
      send.TrySend(msg);
      SentIsDelivered(sends, msg);
    }

    method Broadcast(room: RoomKey, msg: string)
      requires Valid()
      modifies handed
      ensures Valid()
      ensures Abs() == HubSpec.Broadcast(old(Abs()), room, msg)
    {
      ValidSendable(room);
      ValidMembers(room);
      forall ch { MembersMatch(room, ch); }
      BroadcastLocked(room, msg);
      SentIsDelivered(MemberChannels(old(Abs()), room), msg);
      StaysValid(old(Abs()), OpBroadcast(room, msg));
    }

    /** Channels that each took the message, or were left alone, add up to one Deliver step. */
    twostate lemma SentIsDelivered(new sends: set<Channel>, msg: string)
      requires closed == old(closed) && clients == old(clients) && rooms == old(rooms) && made == old(made)
      requires handed == old(handed)
      requires forall c :: c in made ==> c.Abs() == old(c.Abs())
      requires sends <= handed && forall ch :: ch in sends ==> !old(ch.closed)
      requires closed ==> unchanged(handed)
      requires !closed ==> forall ch :: ch in handed ==>
        ch.Abs() == if ch in sends then Offer(old(ch.Abs()), msg) else old(ch.Abs())
      ensures Abs() == if closed then old(Abs()) else Deliver(old(Abs()), sends, msg)
    {
      assert Abs().peers == old(Abs()).peers;
      if closed {
        assert Abs().chans == old(Abs()).chans;
      } else {
        assert forall c :: c in sends ==> !old(Abs()).chans[c].closed;
        assert Abs().chans == Deliver(old(Abs()), sends, msg).chans;
      }
    }

    /** ch belongs to a member of one of the matching rooms among `some`. */
    ghost predicate Hit(some: set<RoomKey>, org: Uuid, channel: string, ch: Channel)
      reads this
    {
      exists r :: r in some && MatchesOrgChannel(r, org, channel) && Member(r, ch)
    }

    /** Walks every room and broadcasts to the matching ones; a channel that can be hit twice is ruled out. */
    method WalkRooms(org: Uuid, channel: string, msg: string)
      requires forall r :: r in rooms ==> Sendable(r)
      requires forall r, r', ch | MatchesOrgChannel(r, org, channel) && MatchesOrgChannel(r', org, channel) ::
        Member(r, ch) && Member(r', ch) ==> r == r'
      modifies handed
      ensures closed ==> unchanged(handed)
      ensures !closed ==> forall ch :: ch in handed ==>
        ch.Abs() == if Hit(rooms.Keys, org, channel, ch) then Offer(old(ch.Abs()), msg) else old(ch.Abs())
    {
      var left := rooms.Keys;
      while left != {}
        invariant left <= rooms.Keys
        invariant forall r :: r in rooms ==> Sendable(r)
        invariant closed ==> unchanged(handed)
        invariant !closed ==> forall ch :: ch in handed ==>
          ch.Abs() == if Hit(rooms.Keys - left, org, channel, ch) then Offer(old(ch.Abs()), msg) else old(ch.Abs())
        decreases |left|
      {
        var room :| room in left;
        if MatchesOrgChannel(room, org, channel) { BroadcastLocked(room, msg); }
        left := left - {room};
      }
    }

    /** Nobody is attempted twice: the rooms walked have no member in common. */
    method BroadcastToOrganization(org: Uuid, channel: string, msg: string)
      requires Valid()
      modifies handed
      ensures Valid()
      ensures Abs() == HubSpec.BroadcastToOrganization(old(Abs()), org, channel, msg)
    {
      forall r | r in rooms { ValidSendable(r); }
      forall r, r', ch |
        Member(r, ch) && Member(r', ch) && MatchesOrgChannel(r, org, channel) && MatchesOrgChannel(r', org, channel)
      {
        ValidOnce(org, channel, r, r', ch);
      }
      forall ch { HitMatches(org, channel, ch); }
      ValidMatching(org, channel);
      WalkRooms(org, channel, msg);
      SentIsDelivered(MatchingChannels(old(Abs()), org, channel), msg);
      StaysValid(old(Abs()), OpBroadcastOrg(org, channel, msg));
    }

    /** The pure facts about a room, read off the objects. */
    lemma SendableRoom(room: RoomKey)
      requires forall r, i :: r in rooms && i in rooms[r] ==> rooms[r][i] in made && rooms[r][i].send in handed
      requires Known(Abs())
      requires var members := MembersOf(Abs(), room);
        && (forall i :: i in members ==> !Abs().chans[Abs().peers[members[i]].send].closed)
        && (forall i, j :: i in members && j in members && i != j ==>
              Abs().peers[members[i]].send != Abs().peers[members[j]].send)
      ensures Sendable(room)
    {
      if room in rooms {
        assert MembersOf(Abs(), room) == rooms[room];
        forall i | i in rooms[room] ensures !rooms[room][i].send.closed {
          assert Abs().peers[rooms[room][i]] == rooms[room][i].Abs();
          assert Abs().chans[rooms[room][i].send] == rooms[room][i].send.Abs();
        }
        forall i, j | i in rooms[room] && j in rooms[room] && i != j
          ensures rooms[room][i].send != rooms[room][j].send
        {
          assert Abs().peers[rooms[room][i]] == rooms[room][i].Abs();
          assert Abs().peers[rooms[room][j]] == rooms[room][j].Abs();
        }
      }
    }

    lemma MembersAreMade()
      requires Known(Abs())
      ensures forall r, i :: r in rooms && i in rooms[r] ==> rooms[r][i] in made && rooms[r][i].send in handed
    {
    }

    lemma ValidSendable(room: RoomKey)
      requires Valid()
      ensures Sendable(room)
    {
      MembersAreSound(Abs(), room);
      MembersAreMade();
      SendableRoom(room);
    }

    lemma MembersMatch(room: RoomKey, ch: Channel)
      requires Known(Abs())
      ensures Member(room, ch) <==> ch in MemberChannels(Abs(), room)
    {
    }

    lemma ValidMembers(room: RoomKey)
      requires Valid()
      ensures MemberChannels(Abs(), room) <= handed && forall ch :: ch in MemberChannels(Abs(), room) ==> !ch.closed
    {
      MembersAreOpen(Abs(), room);
    }

    lemma ValidOnce(org: Uuid, channel: string, r: RoomKey, r': RoomKey, ch: Channel)
      requires Valid() && Member(r, ch) && Member(r', ch)
      requires MatchesOrgChannel(r, org, channel) && MatchesOrgChannel(r', org, channel)
      ensures r == r'
    {
      MembersMatch(r, ch);
      MembersMatch(r', ch);
      SharedChannelSharesRoom(Abs(), org, channel, r, r', ch);
    }

    lemma HitMatches(org: Uuid, channel: string, ch: Channel)
      requires Known(Abs())
      ensures Hit(rooms.Keys, org, channel, ch) <==> ch in MatchingChannels(Abs(), org, channel)
    {
    }

    lemma ValidMatching(org: Uuid, channel: string)
      requires Valid()
      ensures MatchingChannels(Abs(), org, channel) <= handed
      ensures forall ch :: ch in MatchingChannels(Abs(), org, channel) ==> !ch.closed
    {
      MatchingAreOpen(Abs(), org, channel);
    }

    /** for _, c := range h.clients: closeSend. */
    method CloseAll(clients: map<string, ClientObject>, ghost doomed: set<ClientObject>, ghost sends: set<Channel>)
      requires doomed == set i | i in clients :: clients[i]
      requires sends == set i | i in clients :: clients[i].send
      requires forall i :: i in clients ==> !clients[i].closed && !clients[i].send.closed
      requires forall i, j :: i in clients && j in clients && i != j ==>
        clients[i] != clients[j] && clients[i].send != clients[j].send
      modifies doomed, sends
      ensures forall i :: i in clients ==> clients[i].Abs() == old(clients[i].Abs()).(closed := true)
      ensures forall i :: i in clients ==> clients[i].send.Abs() == old(clients[i].send.Abs()).(closed := true)
    {
      var left := clients.Keys;
      while left != {}
        invariant left <= clients.Keys
        invariant forall i :: i in clients ==>
          (clients[i].closed <==> i !in left) && clients[i].rooms == old(clients[i].rooms)
        invariant forall i :: i in clients ==>
          (clients[i].send.closed <==> i !in left) && clients[i].send.queue == old(clients[i].send.queue)
        decreases |left|
      {
        var i :| i in left;
        clients[i].CloseSend();
        left := left - {i};
      }
    }

    method Close()
      requires Valid()
      modifies this`closed, this`clients, this`rooms, made, handed
      ensures Valid()
      ensures Abs() == CloseHub(old(Abs()))
    {
      ValidClients();
      EmptiedIsClosed(Abs());
      assert (set i | i in clients && clients[i] in Abs().peers :: Abs().peers[clients[i]].send) ==
        set i | i in clients :: clients[i].send;
      Shut(set i | i in clients :: clients[i], set i | i in clients :: clients[i].send);
      StaysValid(old(Abs()), OpClose);
    }

    lemma ValidClients()
      requires Valid()
      ensures forall i :: i in clients ==>
        clients[i] in made && clients[i].send in handed && !clients[i].closed && !clients[i].send.closed
      ensures forall i, j :: i in clients && j in clients && i != j ==>
        clients[i] != clients[j] && clients[i].send != clients[j].send
    {
    }

    method Shut(ghost doomed: set<ClientObject>, ghost sends: set<Channel>)
      requires doomed == (set i | i in clients :: clients[i]) && doomed <= made
      requires sends == (set i | i in clients :: clients[i].send) && sends <= handed
      requires forall i :: i in clients ==> !clients[i].closed && !clients[i].send.closed
      requires forall i, j :: i in clients && j in clients && i != j ==>
        clients[i] != clients[j] && clients[i].send != clients[j].send
      modifies this`closed, this`clients, this`rooms, made, handed
      ensures Abs() == Emptied(old(Abs()), doomed, sends)
    {
      closed := true;
      CloseAll(clients, doomed, sends);
      clients, rooms := map[], map[];
      PeersShut(doomed);
      ChansShut(sends);
    }

    twostate lemma PeersShut(new doomed: set<ClientObject>)
      requires made == old(made) && doomed <= made
      requires forall c :: c in made ==> c.Abs() == if c in doomed then old(c.Abs()).(closed := true) else old(c.Abs())
      ensures Abs().peers == Emptied(old(Abs()), doomed, {}).peers
    {
    }

    twostate lemma ChansShut(new sends: set<Channel>)
      requires handed == old(handed) && sends <= handed
      requires forall c :: c in handed ==> c.Abs() == if c in sends then old(c.Abs()).(closed := true) else old(c.Abs())
      ensures Abs().chans == Emptied(old(Abs()), {}, sends).chans
    {
    }
  }

  /** A closed, empty hub whose given clients and channels were closed. */
  ghost function Emptied<H, C>(s: Hub<H, C>, doomed: set<H>, sends: set<C>): Hub<H, C> {
    s.(closed := true, clients := map[], rooms := map[],
       peers := map h | h in s.peers :: if h in doomed then s.peers[h].(closed := true) else s.peers[h],
       chans := map c | c in s.chans :: if c in sends then s.chans[c].(closed := true) else s.chans[c])
  }

  lemma EmptiedIsClosed<H, C>(s: Hub<H, C>)
    requires Inv(s)
    ensures CloseHub(s) ==
      Emptied(s, set i | i in s.clients :: s.clients[i],
        set i | i in s.clients && s.clients[i] in s.peers :: s.peers[s.clients[i]].send)
  {
  }

  // ---------------------------------- what the invariant gives each method, one fact at a time

  lemma LiveIsOpen<H, C>(s: Hub<H, C>, i: string)
    requires Inv(s) && i in s.clients
    ensures Filed(s, s.clients[i]) && s.peers[s.clients[i]].id == i
    ensures !s.peers[s.clients[i]].closed && !s.chans[s.peers[s.clients[i]].send].closed
  {
  }

  lemma RegisteredIsOpen<H, C>(s: Hub<H, C>, h: H)
    requires Inv(s) && h in s.peers
    ensures Filed(s, h)
    ensures s.peers[h].id in s.clients ==>
      s.clients[s.peers[h].id] == h && !s.peers[h].closed && !s.chans[s.peers[h].send].closed
  {
  }

  lemma ClientsAreSound<H, C>(s: Hub<H, C>)
    requires Inv(s)
    ensures forall i :: i in s.clients ==>
      Filed(s, s.clients[i]) && !s.peers[s.clients[i]].closed && !s.chans[s.peers[s.clients[i]].send].closed
    ensures forall i, j :: i in s.clients && j in s.clients && i != j ==>
      s.clients[i] != s.clients[j] && s.peers[s.clients[i]].send != s.peers[s.clients[j]].send
  {
  }

  lemma MembersAreSound<H, C>(s: Hub<H, C>, room: RoomKey)
    requires Inv(s)
    ensures var members := MembersOf(s, room);
      && (forall i :: i in members ==> Filed(s, members[i]) && !s.chans[s.peers[members[i]].send].closed)
      && (forall i, j :: i in members && j in members && i != j ==>
            s.peers[members[i]].send != s.peers[members[j]].send)
  {
    ClientsAreSound(s);
    forall i | i in MembersOf(s, room) { MemberIsOpen(s, room, i); }
  }

  lemma NothingDropped<H>(rooms: map<RoomKey, map<string, H>>, id: string)
    ensures DropMembers(rooms, {}, id) == rooms
  {
  }

  lemma DropOneMore<H>(rooms: map<RoomKey, map<string, H>>, gone: set<RoomKey>, room: RoomKey, id: string)
    requires room !in gone
    ensures DropMember(DropMembers(rooms, gone, id), room, id) == DropMembers(rooms, gone + {room}, id)
  {
  }

  /** A channel with a member in two matching rooms means the rooms are the same one. */
  lemma SharedChannelSharesRoom<H, C>(s: Hub<H, C>, org: Uuid, channel: string, r: RoomKey, r': RoomKey, c: C)
    requires Inv(s) && RoomsAreOwn(s.peers)
    requires r in s.rooms && r' in s.rooms && MatchesOrgChannel(r, org, channel) && MatchesOrgChannel(r', org, channel)
    requires c in MemberChannels(s, r) && c in MemberChannels(s, r')
    ensures r == r'
  {
    var i :| i in s.rooms[r] && s.peers[s.rooms[r][i]].send == c;
    var j :| j in s.rooms[r'] && s.peers[s.rooms[r'][j]].send == c;
    MemberIsOpen(s, r, i);
    MemberIsOpen(s, r', j);
    LiveIsOpen(s, i);
    LiveIsOpen(s, j);
    OneMatchingRoomPerClient(s, org, channel, r, r', i);
  }
}

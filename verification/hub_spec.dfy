/** What the WebSocket hub does, as a state machine over values. One step is one operation run under
    the hub's lock. H names client objects and C names send channels; `panicked` records that some
    step sent on, or closed, an already closed channel. */
module HubSpec {
  import opened Options
  import opened Rooms

  datatype Chan = Chan(cap: nat, queue: seq<string>, closed: bool)

  datatype Client<C> = Client(id: string, org: Uuid, app: Uuid, send: C, rooms: set<RoomKey>, closed: bool)

  datatype Hub<H, C> = Hub(
    max: nat,
    closed: bool,
    clients: map<string, H>,
    rooms: map<RoomKey, map<string, H>>,
    peers: map<H, Client<C>>,     // every client object ever made
    chans: map<C, Chan>,          // every send channel ever handed over
    panicked: bool)

  function NewHub<H, C>(maxConnections: int): Hub<H, C> {
    Hub(if maxConnections <= 0 then 1000 else maxConnections, false, map[], map[], map[], map[], false)
  }

  /** A non-blocking send: the message is dropped when the buffer is full. */
  function Offer(ch: Chan, msg: string): Chan {
    if |ch.queue| < ch.cap then ch.(queue := ch.queue + [msg]) else ch
  }

  function CloseChan<H, C>(s: Hub<H, C>, c: C): Hub<H, C>
    requires c in s.chans
  {
    if s.chans[c].closed then s.(panicked := true)
    else s.(chans := s.chans[c := s.chans[c].(closed := true)])
  }

  predicate Filed<H, C>(s: Hub<H, C>, h: H) { h in s.peers && s.peers[h].send in s.chans }

  /** Every client object the hub can reach is one that was made, and so is its channel. */
  ghost predicate Known<H, C>(s: Hub<H, C>) {
    && (forall i :: i in s.clients ==> Filed(s, s.clients[i]))
    && (forall r, i :: r in s.rooms && i in s.rooms[r] ==> Filed(s, s.rooms[r][i]))
    && (forall h :: h in s.peers ==> Filed(s, h))
  }

  function CloseSend<H, C>(s: Hub<H, C>, h: H): Hub<H, C>
    requires h in s.peers && s.peers[h].send in s.chans
  {
    if s.peers[h].closed then s
    else CloseChan(s.(peers := s.peers[h := s.peers[h].(closed := true)]), s.peers[h].send)
  }

  function MembersOf<H, C>(s: Hub<H, C>, room: RoomKey): map<string, H> {
    if room in s.rooms then s.rooms[room] else map[]
  }

  function AddToRoom<H, C>(s: Hub<H, C>, h: H, room: RoomKey): Hub<H, C>
    requires h in s.peers
  {
    var p := s.peers[h];
    s.(rooms := s.rooms[room := MembersOf(s, room)[p.id := h]],
       peers := s.peers[h := p.(rooms := p.rooms + {room})])
  }

  function DropMember<H>(rooms: map<RoomKey, map<string, H>>, room: RoomKey, id: string): map<RoomKey, map<string, H>> {
    if room !in rooms then rooms
    else if rooms[room] - {id} == map[] then rooms - {room}
    else rooms[room := rooms[room] - {id}]
  }

  function RemoveFromRoom<H, C>(s: Hub<H, C>, h: H, room: RoomKey): Hub<H, C>
    requires h in s.peers
  {
    var p := s.peers[h];
    s.(rooms := DropMember(s.rooms, room, p.id), peers := s.peers[h := p.(rooms := p.rooms - {room})])
  }

  /** Every room in `gone` loses member `id`; rooms emptied that way disappear. */
  function DropMembers<H>(rooms: map<RoomKey, map<string, H>>, gone: set<RoomKey>,
      id: string): map<RoomKey, map<string, H>>
  {
    map r | r in rooms && (r in gone ==> rooms[r] - {id} != map[]) :: if r in gone then rooms[r] - {id} else rooms[r]
  }

  /** The hub with a newly made object, not yet in any room, put under an id. */
  function Enrol<H, C>(s: Hub<H, C>, h: H, c: C, ch: Chan, id: string, org: Uuid, app: Uuid): Hub<H, C> {
    s.(chans := s.chans[c := ch], peers := s.peers[h := Client(id, org, app, c, {}, false)],
      clients := s.clients[id := h])
  }

  function EnrolIn<H, C>(s: Hub<H, C>, h: H, c: C, ch: Chan, id: string, org: Uuid, app: Uuid, room: RoomKey): Hub<H, C>
  {
    AddToRoom(Enrol(s, h, c, ch, id, org, app), h, room)
  }

  /** Register: h is the new client object, c its channel, holding ch. The boolean says whether the client was
      admitted; only then does the returned closure do anything. An admitted client starts in its default room. */
  function Register<H, C>(s: Hub<H, C>, h: H, c: C, ch: Chan, id: string, org: Uuid, app: Uuid): (Hub<H, C>, bool) {
    if s.closed then (s, false)
    else if |s.clients| >= s.max then (CloseChan(s.(chans := s.chans[c := ch]), c), false)
    else (EnrolIn(s, h, c, ch, id, org, app, FormatKey(org, app, DEFAULT_CHANNEL)), true)
  }

  function Subscribe<H, C>(s: Hub<H, C>, id: string, channel: string): (Hub<H, C>, bool)
    requires Known(s)
  {
    if id !in s.clients then (s, false)
    else
      var p := s.peers[s.clients[id]];
      match BuildRoomKey(p.org, p.app, channel)
      case Some(room) => (AddToRoom(s, s.clients[id], room), true)
      case None => (s, false)
  }

  function Unsubscribe<H, C>(s: Hub<H, C>, id: string, channel: string): (Hub<H, C>, bool)
    requires Known(s)
  {
    if id !in s.clients then (s, false)
    else
      var p := s.peers[s.clients[id]];
      match BuildRoomKey(p.org, p.app, channel)
      case Some(room) => (RemoveFromRoom(s, s.clients[id], room), true)
      case None => (s, false)
  }

  /** removeClient, for any client object: the map is checked by id only, and the rooms left are those the
      given object remembers. */
  function RemoveClient<H, C>(s: Hub<H, C>, h: H): Hub<H, C>
    requires Known(s) && h in s.peers
  {
    var p := s.peers[h];
    if p.id !in s.clients then s
    else CloseSend(s.(clients := s.clients - {p.id}, rooms := DropMembers(s.rooms, p.rooms, p.id)), h)
  }

  /** One non-blocking send to each channel in `targets`. */
  function Deliver<H, C>(s: Hub<H, C>, targets: set<C>, msg: string): Hub<H, C> {
    if exists c | c in targets :: c in s.chans && s.chans[c].closed then s.(panicked := true)
    else s.(chans := map c | c in s.chans :: if c in targets then Offer(s.chans[c], msg) else s.chans[c])
  }

  function MemberChannels<H, C>(s: Hub<H, C>, room: RoomKey): set<C>
    requires Known(s)
  {
    var members := MembersOf(s, room);
    set i | i in members :: s.peers[members[i]].send
  }

  function SendToClient<H, C>(s: Hub<H, C>, id: string, msg: string): Hub<H, C>
    requires Known(s)
  {
    if id !in s.clients || s.closed then s else Deliver(s, {s.peers[s.clients[id]].send}, msg)
  }

  function Broadcast<H, C>(s: Hub<H, C>, room: RoomKey, msg: string): Hub<H, C>
    requires Known(s)
  {
    if s.closed then s else Deliver(s, MemberChannels(s, room), msg)
  }

  function MatchingChannels<H, C>(s: Hub<H, C>, org: Uuid, channel: string): set<C>
    requires Known(s)
  {
    set r, i | r in s.rooms && MatchesOrgChannel(r, org, channel) && i in s.rooms[r] :: s.peers[s.rooms[r][i]].send
  }

  function BroadcastToOrganization<H, C>(s: Hub<H, C>, org: Uuid, channel: string, msg: string): Hub<H, C>
    requires Known(s)
  {
    if s.closed then s else Deliver(s, MatchingChannels(s, org, channel), msg)
  }

  /** Close: every registered client's channel is closed and both indexes are emptied. */
  function CloseHub<H, C>(s: Hub<H, C>): Hub<H, C>
    requires Known(s)
  {
    var doomed := set i | i in s.clients && !s.peers[s.clients[i]].closed :: s.clients[i];
    var shut := set h | h in doomed :: s.peers[h].send;
    s.(closed := true, clients := map[], rooms := map[],
       peers := map h | h in s.peers :: if h in doomed then s.peers[h].(closed := true) else s.peers[h],
       chans := map c | c in s.chans :: if c in shut then s.chans[c].(closed := true) else s.chans[c],
       panicked := s.panicked || (exists c | c in shut :: s.chans[c].closed)
         || exists g, h | g in doomed && h in doomed :: g != h && s.peers[g].send == s.peers[h].send)
  }

  /** The write pump takes one buffered message off a channel. */
  function Drain<H, C>(s: Hub<H, C>, c: C): Hub<H, C> {
    if c in s.chans && s.chans[c].queue != []
    then s.(chans := s.chans[c := s.chans[c].(queue := s.chans[c].queue[1..])])
    else s
  }

  // ------------------------------------------------------------------ runs

  datatype Op<H, C> =
    | OpRegister(h: H, c: C, cap: nat, id: string, org: Uuid, app: Uuid)
    | OpSubscribe(id: string, channel: string)
    | OpUnsubscribe(id: string, channel: string)
    | OpUnregister(h: H)
    | OpSend(id: string, msg: string)
    | OpBroadcast(room: RoomKey, msg: string)
    | OpBroadcastOrg(org: Uuid, channel: string, msg: string)
    | OpDrain(c: C)
    | OpClose

  /** What the environment promises: new objects and ids are new, and a closure exists only for a client that
      Register admitted. */
  ghost predicate Enabled<H, C>(s: Hub<H, C>, op: Op<H, C>) {
    match op
    case OpRegister(h, c, _, id, _, _) =>
      h !in s.peers && c !in s.chans && forall g :: g in s.peers ==> s.peers[g].id != id
    case OpUnregister(h) => h in s.peers
    case _ => true
  }

  function Step<H, C>(s: Hub<H, C>, op: Op<H, C>): Hub<H, C>
    requires Known(s) && Enabled(s, op)
  {
    match op
    case OpRegister(h, c, cap, id, org, app) => Register(s, h, c, Chan(cap, [], false), id, org, app).0
    case OpSubscribe(id, channel) => Subscribe(s, id, channel).0
    case OpUnsubscribe(id, channel) => Unsubscribe(s, id, channel).0
    case OpUnregister(h) => RemoveClient(s, h)
    case OpSend(id, msg) => SendToClient(s, id, msg)
    case OpBroadcast(room, msg) => Broadcast(s, room, msg)
    case OpBroadcastOrg(org, channel, msg) => BroadcastToOrganization(s, org, channel, msg)
    case OpDrain(c) => Drain(s, c)
    case OpClose => CloseHub(s)
  }

  // ------------------------------------------------------------- invariant

  /** Client id i is an entry of room r's map. */
  predicate Listed<H>(rooms: map<RoomKey, map<string, H>>, r: RoomKey, i: string) { r in rooms && i in rooms[r] }

  /** Client id i is registered, and r is in that client's own room set. */
  predicate Joined<H, C>(clients: map<string, H>, peers: map<H, Client<C>>, i: string, r: RoomKey) {
    i in clients && clients[i] in peers && r in peers[clients[i]].rooms
  }

  ghost predicate SamePairs<H, C>(s: Hub<H, C>) {
    forall r, i :: Listed(s.rooms, r, i) <==> Joined(s.clients, s.peers, i, r)
  }

  ghost predicate SameObjects<H, C>(s: Hub<H, C>) {
    forall r, i :: Listed(s.rooms, r, i) ==> i in s.clients && s.rooms[r][i] == s.clients[i]
  }

  ghost predicate NoEmptyRoom<H>(rooms: map<RoomKey, map<string, H>>) {
    forall r :: r in rooms ==> exists i :: Listed(rooms, r, i)
  }

  /** The two indexes hold the same relation, about the same client objects, and no room is empty. */
  ghost predicate IndexesAgree<H, C>(s: Hub<H, C>) {
    SamePairs(s) && SameObjects(s) && NoEmptyRoom(s.rooms)
  }

  /** The client object is filed under its own id, and its channel is open. */
  predicate Live<H, C>(clients: map<string, H>, peers: map<H, Client<C>>, chans: map<C, Chan>, i: string) {
    i in clients && clients[i] in peers &&
    var p := peers[clients[i]];
    p.id == i && !p.closed && p.send in chans && !chans[p.send].closed
  }

  ghost predicate AllLive<H, C>(s: Hub<H, C>) {
    forall i :: i in s.clients ==> Live(s.clients, s.peers, s.chans, i)
  }

  /** Client objects do not share an id or a channel. */
  ghost predicate Distinct<H, C>(peers: map<H, Client<C>>) {
    forall g, h :: g in peers && h in peers && g != h ==> peers[g].id != peers[h].id && peers[g].send != peers[h].send
  }

  ghost predicate InOwnRoom(org: Uuid, app: Uuid, r: RoomKey) {
    exists name :: ValidChannel(name) && r == FormatKey(org, app, name)
  }

  /** A client only ever joins rooms of its own organization and app. */
  ghost predicate RoomsAreOwn<H, C>(peers: map<H, Client<C>>) {
    forall h, r :: h in peers && r in peers[h].rooms ==> InOwnRoom(peers[h].org, peers[h].app, r)
  }

  ghost predicate Inv<H, C>(s: Hub<H, C>) {
    && Known(s) && IndexesAgree(s) && Distinct(s.peers) && AllLive(s)
    && |s.clients| <= s.max
    && (s.closed ==> s.clients == map[])
    && !s.panicked
  }
}

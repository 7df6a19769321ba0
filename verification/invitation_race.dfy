/** Acceptances racing one another and everything else that touches the same tables. Each acceptance is a
    transaction at READ COMMITTED: a statement sees what was committed before it and its own transaction's writes,
    and waits for the transaction that holds a conflicting row. */
module InvitationRace {
  import opened Options
  import opened Invitations

  /** How far one acceptance has got. The transaction is open from Resolved to Marked. */
  datatype Stage = Start | Resolved | Creating | HasAccount | Granted | Placed | Marked | Won | Lost(error: Error)

  /** One acceptance: what it was called with, what it read before the transaction (inv), and its own uncommitted
      writes, which the stage, the account and the created user determine. */
  datatype Session = Session(token: string, req: Request, draw: Draw, stage: Stage, inv: Invitation, account: nat,
      created: Option<User>)

  /** `gone` are the ids of deleted departments; ids are never used again. */
  datatype State = State(db: Db, gone: set<nat>, sessions: seq<Session>)

  /** Holding means holding row locks: the inserted user, the upserted placement, the marked invitation. */
  predicate Open(s: Session) { s.stage in {HasAccount, Granted, Placed, Marked} }
  predicate Created(s: Session) { Open(s) && s.created.Some? }
  predicate Holds(s: Session, seat: Seat)
  {
    s.stage in {Placed, Marked} && s.inv.dept.Some? && Seat(s.inv.org, s.account) == seat
  }

  datatype Step =
    | Arrive(token: string, req: Request, hashed: Option<string>)
    | Resolve(i: nat, now: int)
    | Lookup(i: nat)
    | Create(i: nat, id: nat)
    | GrantRole(i: nat)
    | Place(i: nat)
    | Mark(i: nat)
    | Commit(i: nat, now: int)
    | Abort(i: nat, error: Error)
    | Else(event: Event)

  /** What the rest of the system does to these tables. */
  datatype Event =
    | Register(user: User)
    | ChangePassword(id: nat, hash: string)
    | SetActive(id: nat, active: bool)
    | Invite(token: string, inv: Invitation)
    | Revoke(token: string)
    | AddDepartment(dept: nat)
    | DropDepartment(dept: nat)

  // ------------------------------------------------------------------ steps

  predicate SessionStep(step: Step) { !step.Arrive? && !step.Else? }

  /** No other session is about to commit a user with this address. */
  ghost predicate AddressFree(ss: seq<Session>, i: int, email: string) {
    forall j :: 0 <= j < |ss| && j != i && Created(ss[j]) ==> ss[j].created.value.email != email
  }

  /** An id nobody has, committed or not. */
  ghost predicate IdFree(st: State, id: nat) {
    && FreshId(st.db.users, id)
    && forall j :: 0 <= j < |st.sessions| && Created(st.sessions[j]) ==> st.sessions[j].created.value.id != id
  }

  ghost predicate SeatFree(ss: seq<Session>, i: int, seat: Seat) {
    forall j :: 0 <= j < |ss| && j != i ==> !Holds(ss[j], seat)
  }

  ghost predicate RowFree(ss: seq<Session>, i: int, token: string) {
    forall j :: 0 <= j < |ss| && j != i && ss[j].stage == Marked ==> ss[j].token != token
  }

  /** Whether a step can be taken now; a statement that has to wait cannot. */
  ghost predicate Enabled(st: State, step: Step) {
    (SessionStep(step) ==> step.i < |st.sessions|) &&
    match step
    case Arrive(_, _, _) => true
    case Resolve(i, _) => st.sessions[i].stage == Start
    case Lookup(i) => st.sessions[i].stage == Resolved
    case Create(i, id) =>
      st.sessions[i].stage == Creating && IdFree(st, id) && AddressFree(st.sessions, i, st.sessions[i].inv.email)
    case GrantRole(i) => st.sessions[i].stage == HasAccount
    case Place(i) => st.sessions[i].stage == Granted &&
      (st.sessions[i].inv.dept.Some? ==> SeatFree(st.sessions, i, Seat(st.sessions[i].inv.org, st.sessions[i].account)))
    case Mark(i) => st.sessions[i].stage == Placed && RowFree(st.sessions, i, st.sessions[i].token)
    case Commit(i, now) => st.sessions[i].stage == Marked && st.sessions[i].draw.now <= now
    case Abort(i, _) => !st.sessions[i].stage.Won? && !st.sessions[i].stage.Lost?
    case Else(e) => EventEnabled(st, e)
  }

  ghost predicate EventEnabled(st: State, e: Event) {
    match e
    case Register(u) =>
      IdFree(st, u.id) && AddressFree(st.sessions, -1, u.email) && FindUser(st.db.users, u.email).None?
    case ChangePassword(_, _) => true
    case SetActive(_, _) => true
    case Invite(token, inv) =>
      token !in st.db.invs && !inv.accepted && !inv.revoked && (inv.dept.Some? ==> inv.dept.value in st.db.depts)
    case Revoke(token) => token in st.db.invs && RowFree(st.sessions, -1, token)
    case AddDepartment(d) => d !in st.db.depts && d !in st.gone
    case DropDepartment(d) =>
      && d in st.db.depts
      && forall j :: 0 <= j < |st.sessions| && st.sessions[j].stage in {Placed, Marked} ==>
           st.sessions[j].inv.dept != Some(d)
  }

  function Repainted(u: User, id: nat, hash: Option<string>, active: Option<bool>): (r: User)
    ensures r.id == u.id && r.email == u.email && (u.id != id ==> r == u)
    ensures (active.None? || active.value) && u.active ==> r.active
  {
    if u.id != id then u
    else u.(hash := if hash.Some? then hash.value else u.hash,
      active := if active.Some? then active.value else u.active)
  }

  /** UPDATE users ... WHERE id = $1. */
  function Repaint(users: seq<User>, id: nat, hash: Option<string>, active: Option<bool>): (r: seq<User>)
    ensures |r| == |users| && forall k :: 0 <= k < |users| ==> r[k] == Repainted(users[k], id, hash, active)
  {
    if users == [] then [] else [Repainted(users[0], id, hash, active)] + Repaint(users[1..], id, hash, active)
  }

  /** Deleting a department clears it from placements and from invitations. */
  function WithoutDepartment(db: Db, d: nat): Db {
    db.(depts := db.depts - {d},
        staff := map k | k in db.staff && db.staff[k] != d :: db.staff[k],
        invs := map t | t in db.invs :: if db.invs[t].dept == Some(d) then db.invs[t].(dept := None) else db.invs[t])
  }

  function EventEffect(db: Db, e: Event): Db {
    match e
    case Register(u) => db.(users := db.users + [u])
    case ChangePassword(id, hash) => db.(users := Repaint(db.users, id, Some(hash), None))
    case SetActive(id, active) => db.(users := Repaint(db.users, id, None, Some(active)))
    case Invite(token, inv) => db.(invs := db.invs[token := inv])
    case Revoke(token) =>
      if token in db.invs && !db.invs[token].accepted && !db.invs[token].revoked
      then db.(invs := db.invs[token := db.invs[token].(revoked := true)]) else db
    case AddDepartment(d) => db.(depts := db.depts + {d})
    case DropDepartment(d) => WithoutDepartment(db, d)
  }

  function ResolveSession(db: Db, s: Session, now: int): Session {
    if s.token in db.invs && Redeemable(db.invs[s.token], now)
    then s.(stage := Resolved, inv := db.invs[s.token], draw := s.draw.(now := now))
    else s.(stage := Lost(InvalidToken))
  }

  function LookupSession(db: Db, s: Session): Session {
    match FindUser(db.users, s.inv.email)
    case Some(u) =>
      if u.active then s.(stage := HasAccount, account := u.id, created := None) else s.(stage := Lost(Forbidden))
    case None =>
      if Incomplete(s.req) then s.(stage := Lost(Validation))
      else if s.draw.hashed.None? then s.(stage := Lost(Internal)) else s.(stage := Creating)
  }

  /** INSERT INTO users: the address may have been taken since it was looked up. */
  function CreateSession(db: Db, s: Session, id: nat): Session {
    if FindUser(db.users, s.inv.email).Some? || s.draw.hashed.None? then s.(stage := Lost(Internal))
    else
      var draw := s.draw.(id := id);
      s.(stage := HasAccount, draw := draw, account := id, created := Some(NewUser(s.inv, s.req, draw)))
  }

  /** The placement names the department read before the transaction; it may have been deleted since. */
  function PlaceSession(db: Db, s: Session): Session {
    if s.inv.dept.Some? && s.inv.dept.value !in db.depts then s.(stage := Lost(Internal)) else s.(stage := Placed)
  }

  /** UPDATE ... WHERE accepted_at IS NULL AND revoked_at IS NULL. */
  function MarkSession(db: Db, s: Session): Session {
    if s.token in db.invs && !db.invs[s.token].accepted && !db.invs[s.token].revoked
    then s.(stage := Marked)
    else s.(stage := Lost(InvalidToken))
  }

  /** The transaction's writes, applied. */
  function Committed(db: Db, s: Session): Db {
    if s.token !in db.invs then db
    else Enrolled(db, s.token, s.inv, if s.created.Some? then db.users + [s.created.value] else db.users, s.account)
  }

  function SessionAfter(db: Db, s: Session, step: Step): Session
    requires SessionStep(step)
  {
    match step
    case Resolve(_, now) => ResolveSession(db, s, now)
    case Lookup(_) => LookupSession(db, s)
    case Create(_, id) => CreateSession(db, s, id)
    case GrantRole(_) => s.(stage := Granted)
    case Place(_) => PlaceSession(db, s)
    case Mark(_) => MarkSession(db, s)
    case Commit(_, _) => s.(stage := Won)
    case Abort(_, error) => s.(stage := Lost(error))
  }

  const NOBODY := Invitation(0, "", 0, None, 0, false, false)

  ghost function Next(st: State, step: Step): State
    requires Enabled(st, step)
  {
    match step
    case Arrive(token, req, hashed) =>
      st.(sessions := st.sessions + [Session(token, req, Draw(0, 0, hashed), Start, NOBODY, 0, None)])
    case Else(e) =>
      State(EventEffect(st.db, e), if e.DropDepartment? then st.gone + {e.dept} else st.gone, st.sessions)
    case _ =>
      var s := st.sessions[step.i];
      State(if step.Commit? then Committed(st.db, s) else st.db, st.gone,
        st.sessions[step.i := SessionAfter(st.db, s, step)])
  }

  ghost predicate Lawful(st: State, steps: seq<Step>)
    decreases |steps|
  {
    steps != [] ==> Enabled(st, steps[0]) && Lawful(Next(st, steps[0]), steps[1..])
  }

  ghost function Run(st: State, steps: seq<Step>): State
    requires Lawful(st, steps)
    decreases |steps|
  {
    if steps == [] then st else Run(Next(st, steps[0]), steps[1..])
  }

  // -------------------------------------------------------------- invariant

  /** The row the session read still says what it said, except that its department may have been deleted. */
  ghost predicate StillSays(now: Invitation, was: Invitation, gone: set<nat>) {
    && now.org == was.org && now.email == was.email && now.role == was.role && now.expires == was.expires
    && (now.dept == was.dept || (now.dept == None && was.dept.value in gone))
  }

  ghost predicate ReadGood(db: Db, gone: set<nat>, s: Session) {
    && s.token in db.invs && StillSays(db.invs[s.token], s.inv, gone) && Redeemable(s.inv, s.draw.now)
  }

  /** The account the session will commit for is the account of the invited address. */
  ghost predicate AccountGood(db: Db, s: Session) {
    match s.created
    case None => FindUser(db.users, s.inv.email).Some? && FindUser(db.users, s.inv.email).value.id == s.account
    case Some(u) =>
      && FindUser(db.users, s.inv.email).None? && FreshId(db.users, u.id) && s.account == u.id == s.draw.id
      && s.draw.hashed.Some? && !Incomplete(s.req) && u == NewUser(s.inv, s.req, s.draw)
  }

  ghost predicate SessionGood(db: Db, gone: set<nat>, s: Session) {
    && (s.stage in {Resolved, Creating} || Open(s) ==> ReadGood(db, gone, s))
    && (s.stage == Creating ==> !Incomplete(s.req) && s.draw.hashed.Some?)
    && (Open(s) ==> AccountGood(db, s))
    && (s.stage in {Placed, Marked} && s.inv.dept.Some? ==> s.inv.dept.value in db.depts)
    && (s.stage == Marked ==> !db.invs[s.token].accepted && !db.invs[s.token].revoked)
    && (s.stage == Won ==> s.token in db.invs && db.invs[s.token].accepted)
  }

  /** What two sessions never both have. */
  ghost predicate Apart(s: Session, t: Session) {
    && (Created(s) && Created(t) ==>
          s.created.value.email != t.created.value.email && s.created.value.id != t.created.value.id)
    && (s.stage == Marked && t.stage == Marked ==> s.token != t.token)
    && (s.stage == Won && t.stage == Won ==> s.token != t.token)
  }

  ghost predicate Good(st: State) {
    && Valid(st.db) && st.gone !! st.db.depts
    && (forall i :: 0 <= i < |st.sessions| ==> SessionGood(st.db, st.gone, st.sessions[i]))
    && (forall i, j :: 0 <= i < |st.sessions| && 0 <= j < |st.sessions| && i != j ==>
          Apart(st.sessions[i], st.sessions[j]))
  }

  /** A session moved and the database did not. */
  lemma MovedIsGood(st: State, i: nat, s: Session)
    requires Good(st) && i < |st.sessions| && SessionGood(st.db, st.gone, s)
    requires forall j :: 0 <= j < |st.sessions| && j != i ==> Apart(s, st.sessions[j]) && Apart(st.sessions[j], s)
    ensures Good(st.(sessions := st.sessions[i := s]))
  {
  }

  lemma ApartFromOthers(st: State, i: nat, step: Step)
    requires Good(st) && SessionStep(step) && !step.Commit? && Enabled(st, step) && i == step.i
    ensures var s := SessionAfter(st.db, st.sessions[i], step);
      forall j :: 0 <= j < |st.sessions| && j != i ==> Apart(s, st.sessions[j]) && Apart(st.sessions[j], s)
  {
  }

  lemma MovedSessionGood(st: State, step: Step)
    requires Good(st) && SessionStep(step) && !step.Commit? && Enabled(st, step)
    ensures SessionGood(st.db, st.gone, SessionAfter(st.db, st.sessions[step.i], step))
  {
    assert SessionGood(st.db, st.gone, st.sessions[step.i]);
  }

  lemma MoveKeeps(st: State, step: Step)
    requires Good(st) && SessionStep(step) && !step.Commit? && Enabled(st, step)
    ensures Good(Next(st, step))
  {
    var s := st.sessions[step.i];
    MovedSessionGood(st, step);
    ApartFromOthers(st, step.i, step);
    MovedIsGood(st, step.i, SessionAfter(st.db, s, step));
  }

  // ----------------------------------------------------- growing the users table

  /** Rows the session does not hold may come and go: what it needs of the database survives another user. */
  lemma UserAddedKeeps(db: Db, db': Db, gone: set<nat>, s: Session, u: User)
    requires SessionGood(db, gone, s) && db'.users == db.users + [u]
    requires Created(s) ==> s.created.value.email != u.email && s.created.value.id != u.id
    ensures Open(s) ==> AccountGood(db', s)
  {
    if Open(s) {
      FindUserOneMore(db.users, u, s.inv.email);
    }
  }

  lemma CommitValid(st: State, i: nat)
    requires Good(st) && i < |st.sessions| && st.sessions[i].stage == Marked
    ensures Valid(Committed(st.db, st.sessions[i]))
  {
    var s := st.sessions[i];
    assert SessionGood(st.db, st.gone, s);
    if s.created.Some? { UniqueOneMore(st.db.users, s.created.value); }
  }

  lemma CommitSpares(st: State, i: nat, j: nat)
    requires Good(st) && i < |st.sessions| && j < |st.sessions| && i != j && st.sessions[i].stage == Marked
    ensures SessionGood(Committed(st.db, st.sessions[i]), st.gone, st.sessions[j])
  {
    var s, t := st.sessions[i], st.sessions[j];
    assert SessionGood(st.db, st.gone, s) && SessionGood(st.db, st.gone, t) && Apart(s, t);
    if s.created.Some? { UserAddedKeeps(st.db, Committed(st.db, s), st.gone, t, s.created.value); }
  }

  lemma CommitKeeps(st: State, i: nat, now: int)
    requires Good(st) && Enabled(st, Commit(i, now))
    ensures Good(Next(st, Commit(i, now)))
  {
    CommitValid(st, i);
    var s, n := st.sessions[i], Next(st, Commit(i, now));
    assert SessionGood(st.db, st.gone, s);
    forall j | 0 <= j < |st.sessions| ensures SessionGood(n.db, n.gone, n.sessions[j]) {
      if j != i { CommitSpares(st, i, j); }
    }
    forall j, k | 0 <= j < |st.sessions| && 0 <= k < |st.sessions| && j != k
      ensures Apart(n.sessions[j], n.sessions[k])
    {
      assert Apart(st.sessions[j], st.sessions[k]) && SessionGood(st.db, st.gone, st.sessions[j]) &&
        SessionGood(st.db, st.gone, st.sessions[k]);
    }
  }

  // ------------------------------------------------------------- everything else

  lemma {:induction false} FindRepainted(users: seq<User>, id: nat, hash: Option<string>, active: Option<bool>,
      email: string)
    ensures var (was, now) := (FindUser(users, email), FindUser(Repaint(users, id, hash, active), email));
      (was.Some? <==> now.Some?) && (now.Some? ==> now.value.id == was.value.id)
      && (now.Some? && (active.None? || active.value) ==> was.value.active ==> now.value.active)
  {
    if users != [] {
      FindRepainted(users[1..], id, hash, active, email);
    }
  }

  lemma FreshRepainted(users: seq<User>, id: nat, hash: Option<string>, active: Option<bool>, other: nat)
    requires FreshId(users, other)
    ensures FreshId(Repaint(users, id, hash, active), other)
  {
  }

  lemma RepaintSpares(db: Db, gone: set<nat>, s: Session, id: nat, hash: Option<string>, active: Option<bool>)
    requires SessionGood(db, gone, s)
    ensures SessionGood(db.(users := Repaint(db.users, id, hash, active)), gone, s)
  {
    if Open(s) {
      FindRepainted(db.users, id, hash, active, s.inv.email);
      if s.created.Some? { FreshRepainted(db.users, id, hash, active, s.created.value.id); }
    }
  }

  lemma EventValid(st: State, e: Event)
    requires Good(st) && EventEnabled(st, e)
    ensures Valid(EventEffect(st.db, e))
  {
  }

  lemma EventSpares(st: State, e: Event, j: nat)
    requires Good(st) && EventEnabled(st, e) && j < |st.sessions|
    ensures SessionGood(EventEffect(st.db, e), Next(st, Else(e)).gone, st.sessions[j])
  {
    var s := st.sessions[j];
    assert SessionGood(st.db, st.gone, s);
    match e
    case Register(u) => UserAddedKeeps(st.db, EventEffect(st.db, e), st.gone, s, u);
    case ChangePassword(id, hash) => RepaintSpares(st.db, st.gone, s, id, Some(hash), None);
    case SetActive(id, active) => RepaintSpares(st.db, st.gone, s, id, None, Some(active));
    case AddDepartment(d) =>
    case DropDepartment(d) => DropSpares(st, d, j);
    case Invite(_, _) => RowSpares(st, e, j);
    case Revoke(_) => RowSpares(st, e, j);
  }

  lemma DropSpares(st: State, d: nat, j: nat)
    requires Good(st) && EventEnabled(st, DropDepartment(d)) && j < |st.sessions|
    ensures SessionGood(WithoutDepartment(st.db, d), st.gone + {d}, st.sessions[j])
  {
    assert SessionGood(st.db, st.gone, st.sessions[j]);
  }

  lemma RowSpares(st: State, e: Event, j: nat)
    requires Good(st) && EventEnabled(st, e) && (e.Invite? || e.Revoke?) && j < |st.sessions|
    ensures SessionGood(EventEffect(st.db, e), st.gone, st.sessions[j])
  {
  }

  lemma ElseKeeps(st: State, e: Event)
    requires Good(st) && EventEnabled(st, e)
    ensures Good(Next(st, Else(e)))
  {
    EventValid(st, e);
    forall j | 0 <= j < |st.sessions| { EventSpares(st, e, j); }
  }

  lemma NextKeeps(st: State, step: Step)
    requires Good(st) && Enabled(st, step)
    ensures Good(Next(st, step))
  {
    match step
    case Arrive(_, _, _) =>
    case Else(e) => ElseKeeps(st, e);
    case Commit(i, now) => CommitKeeps(st, i, now);
    case _ => MoveKeeps(st, step);
  }

  lemma {:induction false} RunKeeps(st: State, steps: seq<Step>)
    requires Good(st) && Lawful(st, steps)
    ensures Good(Run(st, steps))
    decreases |steps|
  {
    if steps != [] {
      NextKeeps(st, steps[0]);
      RunKeeps(Next(st, steps[0]), steps[1..]);
    }
  }

  // ------------------------------------------------------------ linearization

  /** The account the session joins, if it was there before, is still active. */
  ghost predicate StillActive(db: Db, s: Session) {
    FindUser(db.users, s.inv.email).Some? ==> FindUser(db.users, s.inv.email).value.active
  }

  /** By which clock a whole acceptance would judge the invitation's expiry. The code reads the clock once, when it
      resolves the token; what it promises is a check when the invitation is redeemed. */
  datatype Clock = AtResolve | AtCommit

  function DrawAt(s: Session, now: int, clock: Clock): Draw {
    if clock.AtCommit? then s.draw.(now := now) else s.draw
  }

  /** What the commit relies on without looking again. */
  ghost predicate StillDue(db: Db, s: Session, now: int, clock: Clock) {
    StillActive(db, s) && (clock.AtCommit? ==> now < s.inv.expires)
  }

  /** A commit is one whole acceptance, made at that moment on the database as it then is, although its reads are older:
      exactly unless the account it joins was deactivated since it was looked up or, by the commit's own clock, the
      invitation expired since it was resolved. Otherwise a whole acceptance is refused there, and the commit writes. */
  lemma CommitIsAccept(st: State, i: nat, now: int, clock: Clock)
    requires Good(st) && Enabled(st, Commit(i, now))
    ensures var (s, db') := (st.sessions[i], Next(st, Commit(i, now)).db);
      var whole := Accept(st.db, s.token, s.req, DrawAt(s, now, clock));
      if StillDue(st.db, s, now, clock) then (db', Accepted(s.account)) == whole
      else
        && whole == (st.db, Rejected(if clock.AtCommit? && s.inv.expires <= now then InvalidToken else Forbidden))
        && db' != st.db && |db'.grants| == |st.db.grants| + 1
  {
    assert SessionGood(st.db, st.gone, st.sessions[i]);
  }

  /** What a run did to the database, one entry per moment it changed it. */
  datatype Entry = Redeem(token: string, req: Request, draw: Draw, account: nat) | Other(event: Event)

  ghost function EntryOf(st: State, step: Step, clock: Clock): seq<Entry>
    requires Enabled(st, step)
  {
    match step
    case Commit(i, now) =>
      var s := st.sessions[i];
      [Redeem(s.token, s.req, DrawAt(s, now, clock), s.account)]
    case Else(e) => [Other(e)]
    case _ => []
  }

  ghost function History(st: State, steps: seq<Step>, clock: Clock): seq<Entry>
    requires Lawful(st, steps)
    decreases |steps|
  {
    if steps == [] then [] else EntryOf(st, steps[0], clock) + History(Next(st, steps[0]), steps[1..], clock)
  }

  /** The same entries one after the other, nothing overlapping. */
  function ReplayOne(db: Db, e: Entry): Db {
    match e
    case Redeem(token, req, draw, _) => Accept(db, token, req, draw).0
    case Other(event) => EventEffect(db, event)
  }

  function Replay(db: Db, h: seq<Entry>): Db
    decreases |h|
  {
    if h == [] then db else Replay(ReplayOne(db, h[0]), h[1..])
  }

  /** No commit of this run joins an account that was deactivated, or by its own clock takes up an invitation that
      expired, while the acceptance was under way. */
  ghost predicate Undisturbed(st: State, steps: seq<Step>, clock: Clock)
    requires Lawful(st, steps)
    decreases |steps|
  {
    steps != [] ==>
      && (steps[0].Commit? ==> StillDue(st.db, st.sessions[steps[0].i], steps[0].now, clock))
      && Undisturbed(Next(st, steps[0]), steps[1..], clock)
  }

  // ------------------------------------------------------- the order of commits

  function Redemptions(h: seq<Entry>): nat
    decreases |h|
  {
    if h == [] then 0 else (if h[0].Redeem? then 1 else 0) + Redemptions(h[1..])
  }

  lemma RedemptionsJoin(e: Entry, rest: seq<Entry>)
    ensures Redemptions([e] + rest) == (if e.Redeem? then 1 else 0) + Redemptions(rest)
  {
  }

  lemma {:induction false} ReplayGrants(db: Db, h: seq<Entry>)
    ensures |Replay(db, h).grants| <= |db.grants| + Redemptions(h)
    decreases |h|
  {
    if h != [] {
      assert |ReplayOne(db, h[0]).grants| <= |db.grants| + if h[0].Redeem? then 1 else 0;
      ReplayGrants(ReplayOne(db, h[0]), h[1..]);
    }
  }

  lemma {:induction false} RunGrants(st: State, steps: seq<Step>, clock: Clock)
    requires Good(st) && Lawful(st, steps)
    ensures |Run(st, steps).db.grants| == |st.db.grants| + Redemptions(History(st, steps, clock))
    decreases |steps|
  {
    if steps != [] {
      NextKeeps(st, steps[0]);
      StepGrants(st, steps[0], clock);
      RunGrants(Next(st, steps[0]), steps[1..], clock);
      HistoryHead(st, steps, clock);
    }
  }

  lemma StepGrants(st: State, step: Step, clock: Clock)
    requires Good(st) && Enabled(st, step)
    ensures |Next(st, step).db.grants| == |st.db.grants| + Redemptions(EntryOf(st, step, clock))
  {
    if step.Commit? { assert SessionGood(st.db, st.gone, st.sessions[step.i]); }
  }

  /** The history of a run, its first step apart. */
  lemma HistoryHead(st: State, steps: seq<Step>, clock: Clock)
    requires Lawful(st, steps) && steps != []
    ensures var (head, rest) := (EntryOf(st, steps[0], clock), History(Next(st, steps[0]), steps[1..], clock));
      && |head| <= 1 && Redemptions(History(st, steps, clock)) == Redemptions(head) + Redemptions(rest)
      && (forall db :: Replay(db, History(st, steps, clock)) ==
            if head == [] then Replay(db, rest) else Replay(ReplayOne(db, head[0]), rest))
  {
    var head, rest := EntryOf(st, steps[0], clock), History(Next(st, steps[0]), steps[1..], clock);
    if head == [] {
      assert head + rest == rest;
    } else {
      assert head == [head[0]];
      RedemptionsJoin(head[0], rest);
      assert (head + rest)[1..] == rest;
    }
  }

  /** Main result: an interleaving leaves the database as the whole acceptances and other events do when they are made
      one at a time in the order in which they committed, exactly if no commit was disturbed. Acceptances that lost do
      not occur in that order. */
  lemma {:induction false} SerialInCommitOrderExactly(st: State, steps: seq<Step>, clock: Clock)
    requires Good(st) && Lawful(st, steps)
    ensures Run(st, steps).db == Replay(st.db, History(st, steps, clock)) <==> Undisturbed(st, steps, clock)
    decreases |steps|
  {
    if steps != [] {
      var n, rest := Next(st, steps[0]), History(Next(st, steps[0]), steps[1..], clock);
      NextKeeps(st, steps[0]);
      HistoryHead(st, steps, clock);
      SerialInCommitOrderExactly(n, steps[1..], clock);
      if steps[0].Commit? {
        CommitIsAccept(st, steps[0].i, steps[0].now, clock);
        ReplayGrants(st.db, rest);
        RunGrants(n, steps[1..], clock);
      }
    }
  }

  // ------------------------------------------------------------ some serial order

  /** One entry after the other, each acceptance among them successful and for that account. */
  predicate AllSucceed(db: Db, h: seq<Entry>)
    decreases |h|
  {
    h != [] ==> Succeeds(db, h[0]) && AllSucceed(ReplayOne(db, h[0]), h[1..])
  }

  predicate Succeeds(db: Db, e: Entry) {
    e.Redeem? ==> Accept(db, e.token, e.req, e.draw).1 == Accepted(e.account)
  }

  /** An acceptance under way that joins an account it found, and whose invitation is still as it was read. */
  predicate Waiting(db: Db, s: Session) {
    && Open(s) && s.created.None? && s.token in db.invs
    && !db.invs[s.token].accepted && !db.invs[s.token].revoked && db.invs[s.token].dept == s.inv.dept
  }

  function Joined(s: Session): Entry { Redeem(s.token, s.req, s.draw, s.account) }

  /** The row still offers what the session read, and the account it found is there and active. */
  predicate Ready(db: Db, s: Session) {
    && s.token in db.invs && Redeemable(db.invs[s.token], s.draw.now) && SameOffer(db.invs[s.token], s.inv)
    && FindUser(db.users, s.inv.email).Some?
    && FindUser(db.users, s.inv.email).value.active && FindUser(db.users, s.inv.email).value.id == s.account
  }

  predicate SameOffer(now: Invitation, was: Invitation) {
    now.org == was.org && now.email == was.email && now.role == was.role && now.dept == was.dept
  }

  /** Made here as a whole, the acceptance would do what its commit does. */
  lemma ReadyAccepts(db: Db, s: Session)
    requires Ready(db, s) && s.created.None?
    ensures Accept(db, s.token, s.req, s.draw) == (Committed(db, s), Accepted(s.account))
  {
  }

  /** The entry neither sees the acceptance's writes nor touches what it wrote or read. */
  predicate Passes(e: Entry, s: Session) {
    match e
    case Redeem(token, _, _, account) => token != s.token && account != s.account
    case Other(event) =>
      && !((event.Invite? || event.Revoke?) && event.token == s.token)
      && !(event.DropDepartment? && Some(event.dept) == s.inv.dept)
  }

  predicate AllPass(h: seq<Entry>, s: Session) { forall k :: 0 <= k < |h| ==> Passes(h[k], s) }

  /** The acceptance could have been made whole after the first p entries. */
  ghost predicate FitsAt(db: Db, h: seq<Entry>, p: nat, s: Session) {
    p <= |h| && Ready(Replay(db, h[..p]), s) && AllPass(h[p..], s)
  }

  /** h is a serial order for everything committed so far, and every acceptance under way fits in it at its account's
      place, which is where the account was last active. */
  ghost predicate Serial(db: Db, h: seq<Entry>, place: nat -> nat, st: State) {
    && Replay(db, h) == st.db && AllSucceed(db, h)
    && forall i :: 0 <= i < |st.sessions| && Waiting(st.db, st.sessions[i]) ==>
         FitsAt(db, h, place(st.sessions[i].account), st.sessions[i])
  }

  lemma {:induction false} ReplayJoin(db: Db, g: seq<Entry>, h: seq<Entry>)
    ensures Replay(db, g + h) == Replay(Replay(db, g), h)
    ensures AllSucceed(db, g + h) <==> AllSucceed(db, g) && AllSucceed(Replay(db, g), h)
    decreases |g|
  {
    if g == [] {
      assert g + h == h;
    } else {
      assert (g + h)[1..] == g[1..] + h;
      ReplayJoin(ReplayOne(db, g[0]), g[1..], h);
    }
  }

  // A joined account and an entry that passes can be swapped.

  /** An acceptance's three writes, one by one. */
  lemma CommittedWrites(db: Db, s: Session)
    requires s.token in db.invs && s.created.None?
    ensures var db' := Committed(db, s);
      && db'.users == db.users && db'.grants == db.grants + multiset{Grant(s.account, s.inv.role, s.inv.org)}
      && db'.staff == SetDepartment(db.staff, s.inv.org, s.account, s.inv.dept) && db'.depts == db.depts
      && db'.invs == db.invs[s.token := db.invs[s.token].(accepted := true)]
  {
  }

  lemma JoinThenRedeem(db: Db, s: Session, e: Entry)
    requires s.created.None? && s.token in db.invs && e.Redeem? && Passes(e, s) && Succeeds(db, e)
    ensures ReplayOne(Committed(db, s), e) == Committed(ReplayOne(db, e), s) && Succeeds(Committed(db, s), e)
  {
    var db1, db2 := Committed(db, s), ReplayOne(db, e);
    CommittedWrites(db, s);
    CommittedWrites(db2, s);
    assert db1.invs[e.token] == db.invs[e.token] && db2.invs[s.token] == db.invs[s.token];
    StaffSwap(db.staff, s, db.invs[e.token], e.account);
  }

  lemma StaffSwap(staff: map<Seat, nat>, s: Session, inv: Invitation, account: nat)
    requires account != s.account
    ensures SetDepartment(SetDepartment(staff, s.inv.org, s.account, s.inv.dept), inv.org, account, inv.dept) ==
      SetDepartment(SetDepartment(staff, inv.org, account, inv.dept), s.inv.org, s.account, s.inv.dept)
  {
  }

  lemma JoinThenDrop(db: Db, s: Session, d: nat)
    requires s.created.None? && s.inv.dept != Some(d)
    ensures WithoutDepartment(Committed(db, s), d) == Committed(WithoutDepartment(db, d), s)
  {
  }

  lemma JoinThenRow(db: Db, s: Session, e: Event)
    requires s.created.None? && s.token in db.invs && (e.Invite? || e.Revoke?) && e.token != s.token
    ensures EventEffect(Committed(db, s), e) == Committed(EventEffect(db, e), s)
  {
    var db1, db2 := Committed(db, s), EventEffect(db, e);
    CommittedWrites(db, s);
    assert s.token in db2.invs && db2.invs[s.token] == db.invs[s.token];
    CommittedWrites(db2, s);
    assert e.token in db1.invs <==> e.token in db.invs;
    assert EventEffect(db1, e).invs == db2.invs[s.token := db2.invs[s.token].(accepted := true)];
  }

  lemma Swapped(db: Db, s: Session, e: Entry)
    requires s.created.None? && s.token in db.invs && Passes(e, s) && Succeeds(db, e)
    ensures ReplayOne(Committed(db, s), e) == Committed(ReplayOne(db, e), s) && Succeeds(Committed(db, s), e)
    ensures s.token in ReplayOne(db, e).invs
  {
    match e
    case Redeem(_, _, _, _) => JoinThenRedeem(db, s, e);
    case Other(event) =>
      match event {
        case DropDepartment(d) => JoinThenDrop(db, s, d);
        case Invite(_, _) => JoinThenRow(db, s, event);
        case Revoke(_) => JoinThenRow(db, s, event);
        case _ =>
      }
  }

  lemma {:induction false} JoinFirst(db: Db, s: Session, h: seq<Entry>)
    requires s.created.None? && s.token in db.invs && AllPass(h, s) && AllSucceed(db, h)
    ensures Replay(Committed(db, s), h) == Committed(Replay(db, h), s) && AllSucceed(Committed(db, s), h)
    decreases |h|
  {
    if h != [] {
      Swapped(db, s, h[0]);
      JoinFirst(ReplayOne(db, h[0]), s, h[1..]);
    }
  }

  /** The order with an acceptance put in at p. */
  function WithJoin(h: seq<Entry>, p: nat, s: Session): seq<Entry>
    requires p <= |h|
  {
    h[..p] + [Joined(s)] + h[p..]
  }

  /** Putting it in there does what its commit does at the end. */
  lemma InsertJoin(db: Db, h: seq<Entry>, p: nat, s: Session)
    requires s.created.None? && AllSucceed(db, h) && FitsAt(db, h, p, s)
    ensures var h' := WithJoin(h, p, s);
      && Replay(db, h') == Committed(Replay(db, h), s) && AllSucceed(db, h')
      && Replay(db, h'[..p + 1]) == Committed(Replay(db, h[..p]), s)
  {
    var e, mid := Joined(s), Replay(db, h[..p]);
    assert h == h[..p] + h[p..];
    ReplayJoin(db, h[..p], h[p..]);
    ReplayJoin(db, h[..p], [e]);
    ReplayJoin(db, h[..p] + [e], h[p..]);
    ReadyAccepts(mid, s);
    assert Replay(mid, [e]) == Replay(ReplayOne(mid, e), []) == Committed(mid, s);
    assert AllSucceed(mid, [e]) by { assert Succeeds(mid, e) && AllSucceed(ReplayOne(mid, e), []); }
    JoinFirst(mid, s, h[p..]);
    assert h[..p] + [e] + h[p..] == WithJoin(h, p, s);
    assert WithJoin(h, p, s)[..p + 1] == h[..p] + [e];
  }

  lemma ReadyAfterJoin(db: Db, s: Session, t: Session)
    requires s.created.None? && t.created.None? && s.token != t.token && Ready(db, t)
    ensures Ready(Committed(db, s), t)
  {
  }

  /** The place of an account after an acceptance for account b was put in at p. */
  function Moved(place: nat -> nat, b: nat, p: nat): nat -> nat {
    a => if a == b || place(a) > p then place(a) + 1 else place(a)
  }

  lemma SameAccountFits(db: Db, h: seq<Entry>, p: nat, s: Session, t: Session)
    requires s.created.None? && t.created.None? && s.token != t.token && AllSucceed(db, h)
    requires FitsAt(db, h, p, s) && FitsAt(db, h, p, t)
    ensures FitsAt(db, WithJoin(h, p, s), p + 1, t)
  {
    InsertJoin(db, h, p, s);
    ReadyAfterJoin(Replay(db, h[..p]), s, t);
    assert WithJoin(h, p, s)[p + 1..] == h[p..];
  }

  lemma AroundJoin(h: seq<Entry>, p: nat, q: nat, s: Session)
    requires p < q <= |h|
    ensures WithJoin(h, p, s)[..q + 1] == WithJoin(h[..q], p, s) && WithJoin(h, p, s)[q + 1..] == h[q..]
  {
  }

  lemma LaterFits(db: Db, h: seq<Entry>, p: nat, q: nat, s: Session, t: Session)
    requires s.created.None? && t.created.None? && s.token != t.token && AllSucceed(db, h) && p < q
    requires FitsAt(db, h, p, s) && FitsAt(db, h, q, t)
    ensures FitsAt(db, WithJoin(h, p, s), q + 1, t)
  {
    PrefixFits(db, h, p, q, s);
    InsertJoin(db, h[..q], p, s);
    AroundJoin(h, p, q, s);
    ReadyAfterJoin(Replay(db, h[..q]), s, t);
  }

  lemma EarlierFits(db: Db, h: seq<Entry>, p: nat, q: nat, s: Session, t: Session)
    requires s.token != t.token && s.account != t.account && q <= p <= |h| && FitsAt(db, h, q, t)
    ensures FitsAt(db, WithJoin(h, p, s), q, t)
  {
    var e, h' := Joined(s), WithJoin(h, p, s);
    assert h'[..q] == h[..q];
    forall k | 0 <= k < |h'[q..]| ensures Passes(h'[q..][k], t) {
      assert h'[q + k] == if q + k < p then h[q..][k] else if q + k == p then e else h[q..][k - 1];
    }
  }

  /** The others still fit: those of the same account, and those placed later, one further on. */
  lemma StillFits(db: Db, h: seq<Entry>, place: nat -> nat, s: Session, t: Session)
    requires s.created.None? && t.created.None? && s.token != t.token && AllSucceed(db, h)
    requires FitsAt(db, h, place(s.account), s) && FitsAt(db, h, place(t.account), t)
    ensures var p := place(s.account); FitsAt(db, WithJoin(h, p, s), Moved(place, s.account, p)(t.account), t)
  {
    var p, q := place(s.account), place(t.account);
    if t.account == s.account {
      SameAccountFits(db, h, p, s, t);
    } else if q > p {
      LaterFits(db, h, p, q, s, t);
    } else {
      EarlierFits(db, h, p, q, s, t);
    }
  }

  lemma PrefixFits(db: Db, h: seq<Entry>, p: nat, q: nat, s: Session)
    requires p <= q <= |h| && AllSucceed(db, h) && FitsAt(db, h, p, s)
    ensures AllSucceed(db, h[..q]) && FitsAt(db, h[..q], p, s)
  {
    assert h == h[..q] + h[q..] && h[..q][..p] == h[..p];
    ReplayJoin(db, h[..q], h[q..]);
    assert forall k :: 0 <= k < q - p ==> h[..q][p..][k] == h[p..][k];
  }

  // ----------------------------------------------------------------- each step

  /** After this step, the accounts that are active have their place at the end. */
  function Refreshed(users: seq<User>, place: nat -> nat, n: nat): nat -> nat {
    a => if ActiveId(users, a) then n else place(a)
  }

  predicate ActiveId(users: seq<User>, id: nat) { exists u :: u in users && u.id == id && u.active }

  lemma WaitingIsReady(st: State, i: nat)
    requires Good(st) && i < |st.sessions| && Waiting(st.db, st.sessions[i])
    ensures var s := st.sessions[i];
      && (ActiveId(st.db.users, s.account) <==> StillActive(st.db, s))
      && (StillActive(st.db, s) ==> Ready(st.db, s))
  {
    var s := st.sessions[i];
    assert SessionGood(st.db, st.gone, s);
    forall u | u in st.db.users && u.id == s.account ensures u == FindUser(st.db.users, s.inv.email).value { }
  }

  predicate SameReads(s: Session, s': Session) {
    s'.token == s.token && s'.req == s.req && s'.draw == s.draw && s'.inv == s.inv && s'.account == s.account
  }

  /** A row that still offers what was read did so before. */
  lemma RowWasThere(st: State, step: Step, i: nat)
    requires Good(st) && Enabled(st, step) && i < |st.sessions|
    requires var (s, db') := (st.sessions[i], Next(st, step).db);
      && s.token in st.db.invs && StillSays(st.db.invs[s.token], s.inv, st.gone)
      && s.token in db'.invs && !db'.invs[s.token].accepted && !db'.invs[s.token].revoked
      && db'.invs[s.token].dept == s.inv.dept
    ensures var row := st.db.invs[st.sessions[i].token];
      !row.accepted && !row.revoked && row.dept == st.sessions[i].inv.dept
  {
  }

  predicate Advances(step: Step) { step.GrantRole? || step.Place? || step.Mark? }

  /** Only the lookup makes an acceptance one that joins an account it found, and that account is active. */
  lemma StepOpens(db: Db, s: Session, step: Step)
    requires SessionStep(step)
    ensures var s' := SessionAfter(db, s, step);
      && (Open(s') && s'.created.None? && !StillActive(db, s') ==> Advances(step))
      && (Open(s') && Advances(step) ==> SameReads(s, s') && s'.created == s.created)
  {
  }

  lemma OpenBefore(st: State, step: Step, i: nat)
    requires Good(st) && Enabled(st, step) && i < |Next(st, step).sessions|
    requires var n := Next(st, step);
      Open(n.sessions[i]) && n.sessions[i].created.None? && !StillActive(n.db, n.sessions[i])
    ensures i < |st.sessions| && Open(st.sessions[i]) && st.sessions[i].created.None?
    ensures SameReads(st.sessions[i], Next(st, step).sessions[i])
  {
    if SessionStep(step) && i == step.i { StepOpens(st.db, st.sessions[i], step); }
  }

  /** An inactive account's acceptance was waiting before the step too, as far as it is concerned. */
  lemma WaitedBefore(st: State, step: Step, i: nat)
    requires Good(st) && Enabled(st, step) && i < |Next(st, step).sessions|
    requires var n := Next(st, step); Waiting(n.db, n.sessions[i]) && !StillActive(n.db, n.sessions[i])
    ensures i < |st.sessions| && Waiting(st.db, st.sessions[i])
    ensures SameReads(st.sessions[i], Next(st, step).sessions[i])
  {
    OpenBefore(st, step, i);
    assert SessionGood(st.db, st.gone, st.sessions[i]);
    RowWasThere(st, step, i);
  }

  lemma CommitterIsActive(st: State, i: nat, now: int)
    requires Good(st) && Enabled(st, Commit(i, now)) && StillActive(st.db, st.sessions[i])
    ensures ActiveId(Next(st, Commit(i, now)).db.users, st.sessions[i].account)
  {
    var s, users := st.sessions[i], Next(st, Commit(i, now)).db.users;
    assert SessionGood(st.db, st.gone, s);
    if s.created.Some? {
      assert users[|users| - 1] == s.created.value;
    } else {
      assert FindUser(st.db.users, s.inv.email).value in users;
    }
  }

  /** Which steps are made where they are made: all but a commit that joins a deactivated account. */
  ghost predicate Orderly(st: State, step: Step) {
    step.Commit? && step.i < |st.sessions| ==> StillActive(st.db, st.sessions[step.i])
  }

  lemma EntryPasses(st: State, step: Step, i: nat, e: Entry)
    requires Good(st) && Enabled(st, step) && Orderly(st, step) && i < |Next(st, step).sessions|
    requires var n := Next(st, step); Waiting(n.db, n.sessions[i]) && !StillActive(n.db, n.sessions[i])
    requires EntryOf(st, step, AtResolve) == [e]
    ensures Passes(e, Next(st, step).sessions[i])
  {
    WaitedBefore(st, step, i);
    if step.Commit? {
      NextKeeps(st, step);
      CommitterIsActive(st, step.i, step.now);
      WaitingIsReady(Next(st, step), i);
      assert SessionGood(st.db, st.gone, st.sessions[step.i]);
    }
  }

  lemma EntryFits(db: Db, h: seq<Entry>, p: nat, s: Session, more: seq<Entry>)
    requires FitsAt(db, h, p, s) && AllPass(more, s)
    ensures FitsAt(db, h + more, p, s)
  {
    assert (h + more)[..p] == h[..p];
    assert (h + more)[p..] == h[p..] + more;
  }

  lemma EntryReplayed(st: State, step: Step)
    requires Good(st) && Enabled(st, step) && Orderly(st, step)
    ensures Replay(st.db, EntryOf(st, step, AtResolve)) == Next(st, step).db
    ensures AllSucceed(st.db, EntryOf(st, step, AtResolve))
  {
    if step.Commit? { CommitIsAccept(st, step.i, step.now, AtResolve); }
  }

  lemma OrderlyStep(db: Db, h: seq<Entry>, place: nat -> nat, st: State, step: Step)
    requires Good(st) && Serial(db, h, place, st) && Enabled(st, step) && Orderly(st, step)
    ensures var (n, h') := (Next(st, step), h + EntryOf(st, step, AtResolve));
      Serial(db, h', Refreshed(n.db.users, place, |h'|), n)
  {
    var n, more := Next(st, step), EntryOf(st, step, AtResolve);
    var h' := h + more;
    NextKeeps(st, step);
    EntryReplayed(st, step);
    ReplayJoin(db, h, more);
    forall i | 0 <= i < |n.sessions| && Waiting(n.db, n.sessions[i])
      ensures FitsAt(db, h', Refreshed(n.db.users, place, |h'|)(n.sessions[i].account), n.sessions[i])
    {
      OrderlyFits(db, h, place, st, step, i);
    }
  }

  lemma OrderlyFits(db: Db, h: seq<Entry>, place: nat -> nat, st: State, step: Step, i: nat)
    requires Good(st) && Serial(db, h, place, st) && Enabled(st, step) && Orderly(st, step) && Good(Next(st, step))
    requires var n := Next(st, step); i < |n.sessions| && Waiting(n.db, n.sessions[i])
    requires Replay(db, h + EntryOf(st, step, AtResolve)) == Next(st, step).db
    ensures var (n, h') := (Next(st, step), h + EntryOf(st, step, AtResolve));
      FitsAt(db, h', Refreshed(n.db.users, place, |h'|)(n.sessions[i].account), n.sessions[i])
  {
    var n, more := Next(st, step), EntryOf(st, step, AtResolve);
    var s := n.sessions[i];
    WaitingIsReady(n, i);
    if StillActive(n.db, s) {
      assert (h + more)[..|h + more|] == h + more;
    } else {
      WaitedBefore(st, step, i);
      if more != [] { EntryPasses(st, step, i, more[0]); }
      FitsAlike(db, h, place(s.account), st.sessions[i], s);
      EntryFits(db, h, place(s.account), s, more);
    }
  }

  lemma FitsAlike(db: Db, h: seq<Entry>, p: nat, s: Session, s': Session)
    requires FitsAt(db, h, p, s) && SameReads(s, s')
    ensures FitsAt(db, h, p, s')
  {
  }

  /** A commit that joins a deactivated account is put in where the account was last active. */
  lemma DisturbedStep(db: Db, h: seq<Entry>, place: nat -> nat, st: State, step: Step)
    requires Good(st) && Serial(db, h, place, st) && Enabled(st, step) && !Orderly(st, step)
    ensures var s := st.sessions[step.i];
      var p := place(s.account);
      p <= |h| && EntryOf(st, step, AtResolve) == [Joined(s)]
      && Serial(db, WithJoin(h, p, s), Moved(place, s.account, p), Next(st, step))
  {
    var s, n := st.sessions[step.i], Next(st, step);
    var p := place(s.account);
    assert SessionGood(st.db, st.gone, s);
    assert Waiting(st.db, s);
    InsertJoin(db, h, p, s);
    forall k | 0 <= k < |n.sessions| && Waiting(n.db, n.sessions[k])
      ensures FitsAt(db, WithJoin(h, p, s), Moved(place, s.account, p)(n.sessions[k].account), n.sessions[k])
    {
      assert k != step.i && Waiting(st.db, st.sessions[k]);
      StillFits(db, h, place, s, st.sessions[k]);
    }
  }

  lemma SerialStep(db: Db, h: seq<Entry>, place: nat -> nat, st: State, step: Step)
      returns (h': seq<Entry>, place': nat -> nat)
    requires Good(st) && Serial(db, h, place, st) && Enabled(st, step)
    ensures Serial(db, h', place', Next(st, step))
    ensures multiset(h') == multiset(h) + multiset(EntryOf(st, step, AtResolve))
  {
    if Orderly(st, step) {
      OrderlyStep(db, h, place, st, step);
      h' := h + EntryOf(st, step, AtResolve);
      place' := Refreshed(Next(st, step).db.users, place, |h'|);
    } else {
      var s := st.sessions[step.i];
      var p := place(s.account);
      DisturbedStep(db, h, place, st, step);
      h', place' := WithJoin(h, p, s), Moved(place, s.account, p);
      InsertedOnce(h, p, Joined(s));
    }
  }

  lemma InsertedOnce(h: seq<Entry>, p: nat, e: Entry)
    requires p <= |h|
    ensures multiset(h[..p] + [e] + h[p..]) == multiset(h) + multiset([e])
  {
    assert h == h[..p] + h[p..];
  }

  lemma {:induction false} SerialFrom(db: Db, h: seq<Entry>, place: nat -> nat, st: State, steps: seq<Step>)
      returns (order: seq<Entry>)
    requires Good(st) && Serial(db, h, place, st) && Lawful(st, steps)
    ensures multiset(order) == multiset(h) + multiset(History(st, steps, AtResolve))
    ensures Replay(db, order) == Run(st, steps).db && AllSucceed(db, order)
    decreases |steps|
  {
    if steps == [] {
      order := h;
    } else {
      var h', place' := SerialStep(db, h, place, st, steps[0]);
      NextKeeps(st, steps[0]);
      order := SerialFrom(db, h', place', Next(st, steps[0]), steps[1..]);
    }
  }

  /** Main result: every run whatsoever leaves the database as some one-at-a-time order of the same acceptances and
      events does, each acceptance succeeding for the account it was made for. An acceptance that joined an account
      deactivated meanwhile is placed where that account was last active. */
  lemma EveryRunIsSerial(st: State, steps: seq<Step>) returns (order: seq<Entry>)
    requires Good(st) && AllStillActive(st) && Lawful(st, steps)
    ensures multiset(order) == multiset(History(st, steps, AtResolve))
    ensures Replay(st.db, order) == Run(st, steps).db && AllSucceed(st.db, order)
  {
    forall i | 0 <= i < |st.sessions| && Waiting(st.db, st.sessions[i]) ensures FitsAt(st.db, [], 0, st.sessions[i]) {
      WaitingIsReady(st, i);
    }
    order := SerialFrom(st.db, [], a => 0, st, steps);
  }

  // ---------------------------------------------------------- single use

  /** The token was spent. */
  predicate Spent(db: Db, token: string) { token in db.invs && db.invs[token].accepted }

  lemma SpentStays(st: State, step: Step, token: string)
    requires Good(st) && Enabled(st, step)
    ensures Spent(Next(st, step).db, token) <==>
      Spent(st.db, token) || (step.Commit? && st.sessions[step.i].token == token)
    ensures step.Commit? ==> !Spent(st.db, st.sessions[step.i].token)
  {
  }

  ghost predicate Redeems(h: seq<Entry>, k: int, token: string) { 0 <= k < |h| && h[k].Redeem? && h[k].token == token }

  ghost predicate RedeemedIn(h: seq<Entry>, token: string) { exists k :: Redeems(h, k, token) }

  ghost predicate NoRepeat(h: seq<Entry>, token: string) {
    forall j, k :: Redeems(h, j, token) && Redeems(h, k, token) ==> j == k
  }

  /** Every token is redeemed at most once over the whole run, not at all if it was spent before, and is spent at the
      end exactly if it was spent at the start or redeemed in between. */
  lemma {:induction false} RedeemedOnce(st: State, steps: seq<Step>, clock: Clock, token: string)
    requires Good(st) && Lawful(st, steps)
    ensures NoRepeat(History(st, steps, clock), token)
    ensures Spent(st.db, token) ==> !RedeemedIn(History(st, steps, clock), token)
    ensures Spent(Run(st, steps).db, token) <==> Spent(st.db, token) || RedeemedIn(History(st, steps, clock), token)
    decreases |steps|
  {
    if steps != [] {
      var n, head := Next(st, steps[0]), EntryOf(st, steps[0], clock);
      NextKeeps(st, steps[0]);
      RedeemedOnce(n, steps[1..], clock, token);
      SpentStays(st, steps[0], token);
      HeadThenRest(head, History(n, steps[1..], clock), token);
      HeadRedeems(st, steps[0], clock, token);
    }
  }

  lemma HeadRedeems(st: State, step: Step, clock: Clock, token: string)
    requires Enabled(st, step)
    ensures RedeemedIn(EntryOf(st, step, clock), token) <==> step.Commit? && st.sessions[step.i].token == token
  {
    if step.Commit? && st.sessions[step.i].token == token { assert Redeems(EntryOf(st, step, clock), 0, token); }
  }

  lemma HeadThenRest(head: seq<Entry>, rest: seq<Entry>, token: string)
    requires |head| <= 1 && NoRepeat(rest, token)
    ensures RedeemedIn(head + rest, token) <==> RedeemedIn(head, token) || RedeemedIn(rest, token)
    ensures (RedeemedIn(head, token) ==> !RedeemedIn(rest, token)) ==> NoRepeat(head + rest, token)
  {
    var h := head + rest;
    forall k ensures Redeems(h, k, token) <==> Redeems(head, k, token) || Redeems(rest, k - |head|, token) { }
    forall k | Redeems(rest, k, token) ensures Redeems(h, k + |head|, token) { }
  }

  /** Of the acceptances that present one token, at most one wins. */
  lemma AtMostOneWins(db: Db, steps: seq<Step>, i: nat, j: nat)
    requires Valid(db) && Lawful(State(db, {}, []), steps)
    requires var end := Run(State(db, {}, []), steps);
      i < |end.sessions| && j < |end.sessions| && end.sessions[i].stage == Won && end.sessions[j].stage == Won
      && end.sessions[i].token == end.sessions[j].token
    ensures i == j
  {
    RunKeeps(State(db, {}, []), steps);
    var end := Run(State(db, {}, []), steps);
    assert i != j ==> Apart(end.sessions[i], end.sessions[j]);
  }

  // ------------------------------------------------------------ accounts

  /** No step of this run changes that account's password or status on purpose. */
  ghost predicate LeftAlone(steps: seq<Step>, id: nat) {
    forall k :: 0 <= k < |steps| && steps[k].Else? ==>
      && !(steps[k].event.ChangePassword? && steps[k].event.id == id)
      && !(steps[k].event.SetActive? && steps[k].event.id == id)
  }

  /** An account that was there before keeps its whole row through any acceptances, whoever wins or loses them. */
  lemma {:induction false} AccountsEndure(st: State, steps: seq<Step>, k: nat)
    requires Good(st) && Lawful(st, steps) && k < |st.db.users| && LeftAlone(steps, st.db.users[k].id)
    ensures |Run(st, steps).db.users| >= |st.db.users| && Run(st, steps).db.users[k] == st.db.users[k]
    decreases |steps|
  {
    if steps != [] {
      var n := Next(st, steps[0]);
      NextKeeps(st, steps[0]);
      assert |n.db.users| >= |st.db.users| && n.db.users[k] == st.db.users[k];
      AccountsEndure(n, steps[1..], k);
    }
  }

  /** The hash an account ends with: the newest one set for it, or else the one it had. */
  ghost function LastHash(steps: seq<Step>, id: nat, hash: string): string
    decreases |steps|
  {
    if steps == [] then hash
    else LastHash(steps[1..], id,
      if steps[0].Else? && steps[0].event.ChangePassword? && steps[0].event.id == id then steps[0].event.hash else hash)
  }

  ghost function LastActive(steps: seq<Step>, id: nat, active: bool): bool
    decreases |steps|
  {
    if steps == [] then active
    else LastActive(steps[1..], id,
      if steps[0].Else? && steps[0].event.SetActive? && steps[0].event.id == id then steps[0].event.active else active)
  }

  lemma StepOnRow(st: State, step: Step, k: nat)
    requires Good(st) && Enabled(st, step) && k < |st.db.users|
    ensures var users, u := Next(st, step).db.users, st.db.users[k];
      && |users| >= |st.db.users|
      && users[k] == u.(hash := LastHash([step], u.id, u.hash), active := LastActive([step], u.id, u.active))
  {
    var u := st.db.users[k];
    assert LastHash([step][1..], u.id, u.hash) == u.hash && LastActive([step][1..], u.id, u.active) == u.active;
    if step.Else? && step.event.ChangePassword? && step.event.id == u.id {
      assert LastHash([step], u.id, u.hash) == LastHash([step][1..], u.id, step.event.hash);
    }
    if step.Else? && step.event.SetActive? && step.event.id == u.id {
      assert LastActive([step], u.id, u.active) == LastActive([step][1..], u.id, step.event.active);
    }
  }

  /** Over any run an account keeps its id, address and name, and has the newest hash and status set for it. */
  lemma {:induction false} RowOverRun(st: State, steps: seq<Step>, k: nat)
    requires Good(st) && Lawful(st, steps) && k < |st.db.users|
    ensures var users, u := Run(st, steps).db.users, st.db.users[k];
      && |users| >= |st.db.users|
      && users[k] == u.(hash := LastHash(steps, u.id, u.hash), active := LastActive(steps, u.id, u.active))
    decreases |steps|
  {
    if steps != [] {
      var u, head := st.db.users[k], [steps[0]];
      NextKeeps(st, steps[0]);
      StepOnRow(st, steps[0], k);
      RowOverRun(Next(st, steps[0]), steps[1..], k);
      assert LastHash(steps, u.id, u.hash) == LastHash(steps[1..], u.id, LastHash(head, u.id, u.hash));
      assert LastActive(steps, u.id, u.active) == LastActive(steps[1..], u.id, LastActive(head, u.id, u.active));
    }
  }

  /** An acceptance that made its account leaves it, when it commits and ever after, at the invited address, under the
      name of its own request, and with its own password's hash until the password of that account is changed. */
  lemma WinnerKeepsItsHash(st: State, i: nat, now: int, steps: seq<Step>)
    requires Good(st) && Enabled(st, Commit(i, now)) && st.sessions[i].created.Some?
    requires Lawful(Next(st, Commit(i, now)), steps)
    ensures var s, end := st.sessions[i], Run(Next(st, Commit(i, now)), steps);
      && |end.db.users| > |st.db.users| && s.token in st.db.invs && s.draw.hashed.Some?
      && var u := end.db.users[|st.db.users|];
      && u.id == s.account && u.email == st.db.invs[s.token].email
      && u.first == s.req.first && u.last == s.req.last
      && u.hash == LastHash(steps, u.id, s.draw.hashed.value) && u.active == LastActive(steps, u.id, true)
  {
    var s, n := st.sessions[i], Next(st, Commit(i, now));
    assert SessionGood(st.db, st.gone, s);
    NextKeeps(st, Commit(i, now));
    assert n.db.users == st.db.users + [s.created.value];
    RowOverRun(n, steps, |st.db.users|);
  }

  /** What a session was called with never changes: its request and its hash are those it arrived with. */
  lemma {:induction false} SessionsRemember(st: State, steps: seq<Step>, i: nat)
    requires Lawful(st, steps) && i < |st.sessions|
    ensures var end := Run(st, steps);
      && |end.sessions| >= |st.sessions| && end.sessions[i].token == st.sessions[i].token
      && end.sessions[i].req == st.sessions[i].req && end.sessions[i].draw.hashed == st.sessions[i].draw.hashed
    decreases |steps|
  {
    if steps != [] {
      SessionsRemember(Next(st, steps[0]), steps[1..], i);
    }
  }

  lemma ArrivesAsCalled(st: State, token: string, req: Request, hashed: Option<string>)
    ensures var n := Next(st, Arrive(token, req, hashed));
      && n.db == st.db && |n.sessions| == |st.sessions| + 1 && n.sessions[..|st.sessions|] == st.sessions
      && var s := n.sessions[|st.sessions|];
         s.token == token && s.req == req && s.draw.hashed == hashed && s.stage == Start
  {
  }

  /** A token that is revoked and not spent stays so through any run, whoever presented it before or does afterwards. */
  lemma {:induction false} RevokedStays(st: State, steps: seq<Step>, clock: Clock, token: string)
    requires Good(st) && Lawful(st, steps)
    requires token in st.db.invs && st.db.invs[token].revoked && !st.db.invs[token].accepted
    ensures var db := Run(st, steps).db; token in db.invs && db.invs[token].revoked && !db.invs[token].accepted
    ensures !RedeemedIn(History(st, steps, clock), token)
    decreases |steps|
  {
    if steps != [] {
      var n, head := Next(st, steps[0]), EntryOf(st, steps[0], clock);
      NextKeeps(st, steps[0]);
      RevokedNext(st, steps[0], token);
      RevokedStays(n, steps[1..], clock, token);
      RedeemedOnce(n, steps[1..], clock, token);
      HeadThenRest(head, History(n, steps[1..], clock), token);
      HeadRedeems(st, steps[0], clock, token);
    }
  }

  lemma RevokedNext(st: State, step: Step, token: string)
    requires Good(st) && Enabled(st, step)
    requires token in st.db.invs && st.db.invs[token].revoked && !st.db.invs[token].accepted
    ensures var db := Next(st, step).db; token in db.invs && db.invs[token].revoked && !db.invs[token].accepted
    ensures !(step.Commit? && st.sessions[step.i].token == token)
  {
    if step.Commit? { assert SessionGood(st.db, st.gone, st.sessions[step.i]); }
  }

  /** Revoking works exactly on what is neither spent nor revoked yet. */
  lemma RevokeMeans(st: State, token: string)
    requires Enabled(st, Else(Revoke(token)))
    ensures var n := Next(st, Else(Revoke(token)));
      && n.db.invs.Keys == st.db.invs.Keys && n.db.invs - {token} == st.db.invs - {token}
      && n.db.invs[token] == st.db.invs[token].(revoked := st.db.invs[token].revoked || !st.db.invs[token].accepted)
  {
  }

  /** At most one account carries any address, at the end of any run. */
  lemma OneAccountPerAddress(db: Db, steps: seq<Step>, u: User, v: User)
    requires Valid(db) && Lawful(State(db, {}, []), steps)
    requires u in Run(State(db, {}, []), steps).db.users && v in Run(State(db, {}, []), steps).db.users
    requires u.email == v.email
    ensures u == v
  {
    RunKeeps(State(db, {}, []), steps);
    var users := Run(State(db, {}, []), steps).db.users;
    FoundIsTheOne(users, u);
    FoundIsTheOne(users, v);
  }

  // -------------------------------------------------------- deactivation

  predicate Deactivates(step: Step) { step.Else? && step.event.SetActive? && !step.event.active }

  ghost predicate AllStillActive(st: State) {
    forall i :: 0 <= i < |st.sessions| && Open(st.sessions[i]) ==> StillActive(st.db, st.sessions[i])
  }

  lemma NextKeepsActive(st: State, step: Step)
    requires Good(st) && AllStillActive(st) && Enabled(st, step) && !Deactivates(step)
    ensures AllStillActive(Next(st, step))
  {
    var n := Next(st, step);
    forall i | 0 <= i < |n.sessions| && Open(n.sessions[i]) ensures StillActive(n.db, n.sessions[i]) {
      var s := n.sessions[i];
      if step.Else? {
        EventKeepsActive(st, step.event, st.sessions[i]);
      } else if step.Commit? {
        var c := st.sessions[step.i];
        assert SessionGood(st.db, st.gone, c) && SessionGood(st.db, st.gone, st.sessions[i]) &&
          Apart(c, st.sessions[i]);
        if c.created.Some? { FindUserOneMore(st.db.users, c.created.value, s.inv.email); }
      } else if step.Arrive? {
        assert s == st.sessions[i];
      }
    }
  }

  lemma EventKeepsActive(st: State, e: Event, s: Session)
    requires Good(st) && EventEnabled(st, e) && !Deactivates(Else(e)) && s in st.sessions && Open(s)
    requires StillActive(st.db, s)
    ensures StillActive(EventEffect(st.db, e), s)
  {
  }

  /** As long as nobody is deactivated, every interleaving is serial in the order of its commits. */
  lemma {:induction false} UndisturbedWithoutDeactivation(st: State, steps: seq<Step>)
    requires Good(st) && AllStillActive(st) && Lawful(st, steps)
    requires forall k :: 0 <= k < |steps| ==> !Deactivates(steps[k])
    ensures Undisturbed(st, steps, AtResolve)
    decreases |steps|
  {
    if steps != [] {
      NextKeeps(st, steps[0]);
      NextKeepsActive(st, steps[0]);
      UndisturbedWithoutDeactivation(Next(st, steps[0]), steps[1..]);
    }
  }

  lemma Unroll(st: State, step: Step, rest: seq<Step>)
    requires Enabled(st, step) && Lawful(Next(st, step), rest)
    ensures Lawful(st, [step] + rest) && Run(st, [step] + rest) == Run(Next(st, step), rest)
  {
  }

  const OFFER := Invitation(1, "a", 2, None, 10, false, false)

  function Joining(active: bool, stage: Stage): State {
    State(Db([User(0, "a", "h", active, "f", "l")], multiset{}, map[], {}, map["t" := OFFER]), {},
      [Session("t", Request("", "", ""), Draw(5, 0, None), stage, OFFER, 0, None)])
  }

  /** The second half of the runs below: nothing is looked at again, neither the account nor the clock. */
  lemma JoinsAnyway(active: bool, now: int) returns (steps: seq<Step>)
    requires 5 <= now
    ensures Lawful(Joining(active, HasAccount), steps) && steps != [] && steps[|steps| - 1] == Commit(0, now)
    ensures var db := Run(Joining(active, HasAccount), steps).db;
      db.grants == multiset{Grant(0, 2, 1)} && db.users == [User(0, "a", "h", active, "f", "l")]
  {
    assert Next(Joining(active, HasAccount), GrantRole(0)) == Joining(active, Granted);
    assert Next(Joining(active, Granted), Place(0)) == Joining(active, Placed);
    assert Next(Joining(active, Placed), Mark(0)) == Joining(active, Marked);
    steps := [];
    Unroll(Joining(active, Marked), Commit(0, now), steps);
    steps := [Commit(0, now)] + steps;
    Unroll(Joining(active, Placed), Mark(0), steps);
    steps := [Mark(0)] + steps;
    Unroll(Joining(active, Granted), Place(0), steps);
    steps := [Place(0)] + steps;
    Unroll(Joining(active, HasAccount), GrantRole(0), steps);
    steps := [GrantRole(0)] + steps;
  }

  function NobodyYet(): State { Joining(true, Start).(sessions := []) }

  /** The first half: at time 5 the token is resolved and the account looked up. */
  lemma Arrives(rest: seq<Step>) returns (steps: seq<Step>)
    requires Lawful(Joining(true, HasAccount), rest)
    ensures Good(NobodyYet()) && Lawful(NobodyYet(), steps)
    ensures Run(NobodyYet(), steps) == Run(Joining(true, HasAccount), rest)
    ensures rest != [] ==> steps != [] && steps[|steps| - 1] == rest[|rest| - 1]
  {
    var s1 := Next(NobodyYet(), Arrive("t", Request("", "", ""), None));
    var s2 := Next(s1, Resolve(0, 5));
    assert s2.sessions[0].inv == OFFER;
    assert Next(s2, Lookup(0)) == Joining(true, HasAccount);
    Unroll(s2, Lookup(0), rest);
    Unroll(s1, Resolve(0, 5), [Lookup(0)] + rest);
    Unroll(NobodyYet(), Arrive("t", Request("", "", ""), None), [Resolve(0, 5)] + ([Lookup(0)] + rest));
    steps := [Arrive("t", Request("", "", ""), None)] + ([Resolve(0, 5)] + ([Lookup(0)] + rest));
  }

  /** An account deactivated after it was looked up is given the role all the same. */
  lemma OvertakenByDeactivation() returns (steps: seq<Step>)
    ensures Good(NobodyYet()) && Lawful(NobodyYet(), steps)
    ensures var db := Run(NobodyYet(), steps).db;
      db.grants == multiset{Grant(0, 2, 1)} && db.users == [User(0, "a", "h", false, "f", "l")]
  {
    var rest := JoinsAnyway(false, 5);
    assert Next(Joining(true, HasAccount), Else(SetActive(0, false))) == Joining(false, HasAccount);
    Unroll(Joining(true, HasAccount), Else(SetActive(0, false)), rest);
    steps := Arrives([Else(SetActive(0, false))] + rest);
  }

  /** An invitation that expires at time 10, resolved at time 5, is redeemed at time 20 all the same, when nobody who
      presents it any more would be let in. */
  lemma RedeemedAfterExpiry() returns (steps: seq<Step>)
    ensures Good(NobodyYet()) && Lawful(NobodyYet(), steps)
    ensures Run(NobodyYet(), steps).db.grants == multiset{Grant(0, 2, 1)}
    ensures Accept(NobodyYet().db, "t", Request("", "", ""), Draw(20, 0, None)).1 == Rejected(InvalidToken)
    ensures steps != [] && steps[|steps| - 1] == Commit(0, 20)
  {
    var rest := JoinsAnyway(true, 20);
    steps := Arrives(rest);
  }
}

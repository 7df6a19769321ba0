/** Redeeming an invitation, one acceptance at a time: what the whole call does to the database. */
module Invitations {
  import opened Options

  /** `active` is status == "active"; every other status is refused alike. */
  datatype User = User(id: nat, email: string, hash: string, active: bool, first: string, last: string)

  /** A row of user_roles. app_id is NULL, so the table's unique constraint never applies and equal rows may repeat. */
  datatype Grant = Grant(user: nat, role: nat, org: nat)

  /** Rows are keyed by token hash, which is unique and never changes. */
  datatype Invitation = Invitation(org: nat, email: string, role: nat, dept: Option<nat>, expires: int,
      accepted: bool, revoked: bool)

  datatype Seat = Seat(org: nat, user: nat)

  datatype Db = Db(users: seq<User>, grants: multiset<Grant>, staff: map<Seat, nat>, depts: set<nat>,
      invs: map<string, Invitation>)

  datatype Request = Request(first: string, last: string, password: string)

  /** What one call draws from outside: the clock, a fresh id, and the hash of its password if hashing succeeds. */
  datatype Draw = Draw(now: int, id: nat, hashed: Option<string>)

  datatype Error = InvalidToken | Forbidden | Validation | Internal
  datatype Outcome = Accepted(user: nat) | Rejected(error: Error)

  // ------------------------------------------------------------------ rows

  datatype Status = Pending | WasAccepted | WasRevoked | Expired

  /** What already happened outranks what merely lapsed. */
  function StatusAt(inv: Invitation, now: int): Status {
    if inv.accepted then WasAccepted
    else if inv.revoked then WasRevoked
    else if !(now < inv.expires) then Expired
    else Pending
  }

  predicate Redeemable(inv: Invitation, now: int) { StatusAt(inv, now) == Pending }

  function FindUser(users: seq<User>, email: string): (r: Option<User>)
    ensures r.Some? ==> r.value in users && r.value.email == email
    ensures r.None? ==> forall u :: u in users ==> u.email != email
  {
    if users == [] then None else if users[0].email == email then Some(users[0]) else FindUser(users[1..], email)
  }

  predicate Incomplete(req: Request) { req.first == "" || req.last == "" || req.password == "" }

  function NewUser(inv: Invitation, req: Request, draw: Draw): User
    requires draw.hashed.Some?
  {
    User(draw.id, inv.email, draw.hashed.value, true, req.first, req.last)
  }

  /** Unique addresses and ids; placements and invitations name departments that exist. */
  ghost predicate Valid(db: Db) {
    && UniqueUsers(db.users)
    && (forall k :: k in db.staff ==> db.staff[k] in db.depts)
    && (forall t :: t in db.invs && db.invs[t].dept.Some? ==> db.invs[t].dept.value in db.depts)
  }

  ghost predicate UniqueUsers(users: seq<User>) {
    forall i, j :: 0 <= i < j < |users| ==> users[i].email != users[j].email && users[i].id != users[j].id
  }

  ghost predicate FreshId(users: seq<User>, id: nat) { forall u :: u in users ==> u.id != id }

  // ------------------------------------------------------------ the whole call

  /** resolveAccount: the account the role goes to, and the users table after it. */
  function ResolveAccount(users: seq<User>, inv: Invitation, req: Request, draw: Draw): (seq<User>, Outcome) {
    match FindUser(users, inv.email)
    case Some(u) => if u.active then (users, Accepted(u.id)) else (users, Rejected(Forbidden))
    case None =>
      if Incomplete(req) then (users, Rejected(Validation))
      else if draw.hashed.None? then (users, Rejected(Internal))
      else (users + [NewUser(inv, req, draw)], Accepted(draw.id))
  }

  function SetDepartment(staff: map<Seat, nat>, org: nat, user: nat, dept: Option<nat>): map<Seat, nat> {
    if dept.Some? then staff[Seat(org, user) := dept.value] else staff
  }

  /** The role, the placement and the spent invitation, for a resolved account. */
  function Enrolled(db: Db, token: string, inv: Invitation, users: seq<User>, user: nat): Db
    requires token in db.invs
  {
    Db(users, db.grants + multiset{Grant(user, inv.role, inv.org)}, SetDepartment(db.staff, inv.org, user, inv.dept),
       db.depts, db.invs[token := db.invs[token].(accepted := true)])
  }

  /** An account that was there for the address is the one, and must be active; otherwise one row was added, with the
      hash of the password, the name from the request, and ready for use. */
  ghost predicate AccountFor(users: seq<User>, users': seq<User>, email: string, req: Request, draw: Draw, user: nat) {
    if exists u :: u in users && u.email == email then
      users' == users && exists u :: u in users && u.email == email && u.id == user && u.active
    else
      |users'| == |users| + 1 && users <= users' &&
      var u := users'[|users|];
      && u.id == user == draw.id && u.email == email && draw.hashed == Some(u.hash) && u.active
      && u.first == req.first != "" && u.last == req.last != "" && req.password != ""
  }

  /** Execute, with nothing else running and no fault. */
  function Accept(db: Db, token: string, req: Request, draw: Draw): (Db, Outcome) {
    if token !in db.invs || !Redeemable(db.invs[token], draw.now) then (db, Rejected(InvalidToken))
    else
      var inv := db.invs[token];
      var (users, who) := ResolveAccount(db.users, inv, req, draw);
      if who.Rejected? then (db, who) else (Enrolled(db, token, inv, users, who.user), who)
  }

  // ---------------------------------------------------------------- in place

  /** Where the database fails: at the n-th statement of the transaction, or at its commit, which may still be
      durable. */
  datatype Fault = NoFault | FailsAt(statement: nat) | CommitFails(durable: bool)

  class Database {
    var users: seq<User>
    var grants: multiset<Grant>
    var staff: map<Seat, nat>
    var depts: set<nat>
    var invs: map<string, Invitation>

    constructor (db: Db) ensures Abs() == db {
      users, grants, staff, depts, invs := db.users, db.grants, db.staff, db.depts, db.invs;
    }

    ghost function Abs(): Db reads this { Db(users, grants, staff, depts, invs) }

    method ByEmail(email: string) returns (r: Option<User>)
      ensures r == FindUser(users, email)
    {
      for i := 0 to |users|
        invariant FindUser(users, email) == FindUser(users[i..], email)
      {
        if users[i].email == email { return Some(users[i]); }
        assert users[i..][1..] == users[i + 1..];
      }
      return None;
    }

    method FindOrCreate(inv: Invitation, req: Request, draw: Draw, fault: Fault) returns (r: Outcome)
      modifies this`users
      ensures fault in {FailsAt(0), FailsAt(1)} ==> r.Accepted? ==>
        (users, r) == ResolveAccount(old(users), inv, req, draw)
      ensures fault !in {FailsAt(0), FailsAt(1)} ==> (users, r) == ResolveAccount(old(users), inv, req, draw)
      ensures r.Accepted? ==> AccountFor(old(users), users, inv.email, req, draw, r.user)
    {
      if fault == FailsAt(0) { return Rejected(Internal); }
      var existing := ByEmail(inv.email);
      if existing.Some? {
        if !existing.value.active { return Rejected(Forbidden); }
        return Accepted(existing.value.id);
      }
      if req.first == "" || req.last == "" || req.password == "" { return Rejected(Validation); }
      if draw.hashed.None? { return Rejected(Internal); }
      if fault == FailsAt(1) { return Rejected(Internal); }
      var user := User(draw.id, inv.email, draw.hashed.value, true, req.first, req.last);
      users := users + [user];
      return Accepted(user.id);
    }

    /** The transaction's body: the guard of the last write is its own WHERE clause. */
    method Body(token: string, inv: Invitation, req: Request, draw: Draw, fault: Fault) returns (r: Outcome)
      requires token in invs && invs[token] == inv && Redeemable(inv, draw.now)
      modifies this`users, this`grants, this`staff, this`invs
      ensures r.Accepted? ==> (Abs(), r) == Accept(old(Abs()), token, req, draw)
      ensures r.Accepted? ==> AccountFor(old(users), users, inv.email, req, draw, r.user)
      ensures fault.NoFault? || fault.CommitFails? ==> r == Accept(old(Abs()), token, req, draw).1
    {
      r := FindOrCreate(inv, req, draw, fault);
      if r.Rejected? { return; }
      if fault == FailsAt(2) { return Rejected(Internal); }
      grants := grants + multiset{Grant(r.user, inv.role, inv.org)};
      if inv.dept.Some? {
        if fault == FailsAt(3) { return Rejected(Internal); }
        staff := staff[Seat(inv.org, r.user) := inv.dept.value];
      }
      if fault == FailsAt(4) { return Rejected(Internal); }
      if invs[token].accepted || invs[token].revoked { return Rejected(InvalidToken); }
      invs := invs[token := invs[token].(accepted := true)];
    }

    /** Execute: either everything it writes takes effect, exactly as Accept says, or nothing does. */
    method Execute(token: string, req: Request, draw: Draw, fault: Fault) returns (r: Outcome)
      modifies this`users, this`grants, this`staff, this`invs
      ensures r.Accepted? ==> (Abs(), r) == Accept(old(Abs()), token, req, draw)
      ensures r.Accepted? ==>
        token in old(invs) && AccountFor(old(users), users, old(invs)[token].email, req, draw, r.user)
      ensures r.Rejected? && fault != CommitFails(true) ==> Abs() == old(Abs())
      ensures Abs() == old(Abs()) || Abs() == Accept(old(Abs()), token, req, draw).0
      ensures fault.NoFault? ==> (Abs(), r) == Accept(old(Abs()), token, req, draw)
    {
      if token !in invs || !Redeemable(invs[token], draw.now) { return Rejected(InvalidToken); }
      var saved := (users, grants, staff, invs);
      r := Body(token, invs[token], req, draw, fault);
      if r.Rejected? || fault == CommitFails(false) {
        users, grants, staff, invs := saved.0, saved.1, saved.2, saved.3;
      }
      if r.Accepted? && fault.CommitFails? { r := Rejected(Internal); }
    }
  }

  // ------------------------------------------------------------- properties

  lemma {:induction false} FindUserOneMore(users: seq<User>, u: User, email: string)
    ensures FindUser(users + [u], email) ==
      if FindUser(users, email).Some? then FindUser(users, email) else if u.email == email then Some(u) else None
  {
    if users == [] {
      assert users + [u] == [u] && [u][1..] == [];
    } else {
      assert (users + [u])[1..] == users[1..] + [u] && (users + [u])[0] == users[0];
      FindUserOneMore(users[1..], u, email);
    }
  }

  /** With unique addresses, what the lookup finds is the account of that address. */
  lemma FoundIsTheOne(users: seq<User>, u: User)
    requires UniqueUsers(users) && u in users
    ensures FindUser(users, u.email) == Some(u)
  {
  }

  lemma UniqueOneMore(users: seq<User>, u: User)
    requires UniqueUsers(users) && FindUser(users, u.email).None? && FreshId(users, u.id)
    ensures UniqueUsers(users + [u])
  {
  }

  /** An acceptance keeps the tables' constraints. */
  lemma AcceptKeepsValid(db: Db, token: string, req: Request, draw: Draw)
    requires Valid(db) && FreshId(db.users, draw.id)
    ensures Valid(Accept(db, token, req, draw).0)
  {
    var (db', who) := Accept(db, token, req, draw);
    if who.Accepted? && FindUser(db.users, db.invs[token].email).None? {
      UniqueOneMore(db.users, NewUser(db.invs[token], req, draw));
    }
  }

  /** This seat is in that department, if any, and every other seat is as it was. */
  ghost predicate SeatedOnly(db: Db, db': Db, seat: Seat, dept: Option<nat>) {
    && (if dept.Some? then seat in db'.staff && db'.staff[seat] == dept.value else db'.staff == db.staff)
    && db'.staff - {seat} == db.staff - {seat}
  }

  /** Who is accepted and what they get: one live token, one grant, one seat if the invitation names a department, one
      account for the address, which is the one that was there if there was one, as it was, and otherwise a new one
      with the hash and the name that came with the call. */
  lemma AcceptedMeans(db: Db, token: string, req: Request, draw: Draw)
    requires Valid(db) && FreshId(db.users, draw.id)
    ensures var (db', who) := Accept(db, token, req, draw);
      && (who.Rejected? ==> db' == db)
      && (who.Accepted? ==>
        && token in db.invs && !db.invs[token].accepted && !db.invs[token].revoked && draw.now < db.invs[token].expires
        && db'.invs == db.invs[token := db.invs[token].(accepted := true)]
        && db'.grants == db.grants + multiset{Grant(who.user, db.invs[token].role, db.invs[token].org)}
        && AccountFor(db.users, db'.users, db.invs[token].email, req, draw, who.user)
        && FindUser(db'.users, db.invs[token].email).Some?
        && FindUser(db'.users, db.invs[token].email).value.id == who.user
        && (|db'.users| > |db.users| <==> FindUser(db.users, db.invs[token].email).None?)
        && SeatedOnly(db, db', Seat(db.invs[token].org, who.user), db.invs[token].dept))
  {
  }

  /** Which of the five answers a call gets, and in which order the reasons count. */
  lemma AnswersInOrder(db: Db, token: string, req: Request, draw: Draw)
    ensures var who := Accept(db, token, req, draw).1;
      var usable := token in db.invs &&
        !db.invs[token].accepted && !db.invs[token].revoked && draw.now < db.invs[token].expires;
      && (!usable <==> who == Rejected(InvalidToken))
      && (usable ==>
        var known := FindUser(db.users, db.invs[token].email);
        && (who == Rejected(Forbidden) <==> known.Some? && !known.value.active)
        && (who == Rejected(Validation) <==>
              known.None? && (req.first == "" || req.last == "" || req.password == ""))
        && (who == Rejected(Internal) <==>
              known.None? && req.first != "" && req.last != "" && req.password != "" && draw.hashed.None?))
  {
  }

  /** A token is spent once: whoever presents it afterwards, with whatever request and whenever, changes nothing. */
  lemma SpentOnce(db: Db, token: string, req: Request, draw: Draw, req': Request, draw': Draw)
    requires Accept(db, token, req, draw).1.Accepted?
    ensures Accept(Accept(db, token, req, draw).0, token, req', draw') ==
      (Accept(db, token, req, draw).0, Rejected(InvalidToken))
  {
  }
}

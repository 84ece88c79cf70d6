/**
 linkOrCreateUser (internal/api/oidc.go:256-292) as a step system: each call of the store is
 a step, so that logins interleave with each other and with the store's other users.
 */
module Sso {
  import opened Wrappers
  import opened Store

  datatype Pc =
    | LookingUp
    | Touching(userId: string)
    | ReadingUser(userId: string)
    | CheckingName
    | Creating
    | LoggedIn(user: User)
    | Refused

  datatype Login = Login(provider: string, subject: string, email: string, displayName: string, pc: Pc)

  // History: what happened to identities.
  datatype Event =
    | Created(userId: string, identity: Pair)
    | Linked(userId: string, identity: Pair)
    | Unlinked(userId: string, identity: Pair)

  datatype State = State(db: Db, logins: seq<Login>, log: seq<Event>)

  const START := State(EMPTY, [], [])

  datatype Action =
    | Arrive(provider: string, subject: string, email: string, displayName: string)
    | Advance(login: nat, id: Option<string>)   // the id is that of a new account
    | StoreFails(login: nat)
    | Other(op: Op)                             // an admin, a local login, an integration

  function IdentityOf(x: Login): Pair {
    (x.provider, x.subject)
  }

  predicate Over(pc: Pc) {
    pc.LoggedIn? || pc.Refused?
  }

  predicate Can(s: State, a: Action) {
    match a
    case Arrive(_, _, _, _) => true
    case Advance(l, id) => l < |s.logins| && !Over(s.logins[l].pc) && FreshFor(s.db, id)
    case StoreFails(l) => l < |s.logins| && !Over(s.logins[l].pc)
    case Other(op) => !op.CreateUserAndIdentity? && IsFresh(s.db, op)
  }

  function At(s: State, l: nat, pc: Pc): State
    requires l < |s.logins|
  {
    s.(logins := s.logins[l := s.logins[l].(pc := pc)])
  }

  function NewUser(x: Login): CreateArgs {
    CreateArgs(x.email, "user", x.provider, x.subject, x.email, x.displayName)
  }

  ghost function DoAdvance(s: State, l: nat, id: Option<string>): State
    requires l < |s.logins|
  {
    var x := s.logins[l];
    match x.pc
    case LookingUp =>
      if IdentityOf(x) in s.db.identities then At(s, l, Touching(s.db.identities[IdentityOf(x)].userId))
      else At(s, l, CheckingName)
    case Touching(userId) =>
      // A failure is only logged.
      At(s.(db := After(s.db, TouchIdentityLogin(x.provider, x.subject))), l, ReadingUser(userId))
    case ReadingUser(userId) =>
      if userId in s.db.users && !s.db.users[userId].disabled then At(s, l, LoggedIn(s.db.users[userId]))
      else At(s, l, Refused)
    case CheckingName =>
      if NameTaken(s.db, x.email) && IdNamed(s.db, x.email) != "" then At(s, l, Refused)
      else At(s, l, Creating)
    case Creating =>
      (match Apply(s.db, CreateUserAndIdentity(id, NewUser(x)))
       case Ok(next) =>
         At(s.(db := next, log := s.log + [Created(id.GetOr(""), IdentityOf(x))]),
            l, LoggedIn(User(id.GetOr(""), x.email, "user", false)))
       case Err(_) => At(s, l, Refused))
    case _ => s
  }

  function DoStoreFails(s: State, l: nat): State
    requires l < |s.logins|
  {
    match s.logins[l].pc
    case Touching(userId) => At(s, l, ReadingUser(userId))
    case CheckingName => At(s, l, Creating)      // no user was found under the name
    case _ => At(s, l, Refused)
  }

  // What an operation does to identities, if it succeeds.
  function Notes(op: Op): seq<Event> {
    match op
    case LinkIdentityToUser(userId, p, s, _, _) => [Linked(userId, (p, s))]
    case UnlinkIdentity(userId, p, s) => [Unlinked(userId, (p, s))]
    case _ => []
  }

  ghost function DoOther(s: State, op: Op): State {
    s.(db := After(s.db, op), log := s.log + if Apply(s.db, op).Ok? then Notes(op) else [])
  }

  ghost function Do(s: State, a: Action): State
    requires Can(s, a)
  {
    match a
    case Arrive(p, subject, email, name) => s.(logins := s.logins + [Login(p, subject, email, name, LookingUp)])
    case Advance(l, id) => DoAdvance(s, l, id)
    case StoreFails(l) => DoStoreFails(s, l)
    case Other(op) => DoOther(s, op)
  }

  ghost function Exec(s: State, run: seq<Action>): Option<State>
    decreases |run|
  {
    if run == [] then Some(s)
    else if Can(s, run[0]) then Exec(Do(s, run[0]), run[1..])
    else None
  }

  ghost predicate Reachable(s: State) {
    exists run :: Exec(START, run) == Some(s)
  }

  // ----- the invariant -----

  // The account was created by this identity, or an admin linked the identity to it.
  predicate Provenance(log: seq<Event>, userId: string, k: Pair) {
    Created(userId, k) in log || Linked(userId, k) in log
  }

  predicate Opens(e: Event, k: Pair) {
    e.identity == k && !e.Unlinked?
  }

  function Openings(log: seq<Event>, k: Pair): nat {
    if log == [] then 0 else Openings(log[..|log| - 1], k) + if Opens(log[|log| - 1], k) then 1 else 0
  }

  function Closings(log: seq<Event>, k: Pair): nat {
    if log == [] then 0
    else Closings(log[..|log| - 1], k) + if log[|log| - 1].identity == k && log[|log| - 1].Unlinked? then 1 else 0
  }

  ghost predicate Traced(identities: map<Pair, Identity>, log: seq<Event>) {
    && (forall k :: k in identities ==> Provenance(log, identities[k].userId, k))
    && (forall k :: Openings(log, k) == Closings(log, k) + if k in identities then 1 else 0)
  }

  predicate LoginOk(log: seq<Event>, x: Login) {
    match x.pc
    case Touching(userId) => Provenance(log, userId, IdentityOf(x))
    case ReadingUser(userId) => Provenance(log, userId, IdentityOf(x))
    case LoggedIn(u) => Provenance(log, u.id, IdentityOf(x)) && !u.disabled
    case _ => true
  }

  ghost predicate Inv(s: State) {
    && WellFormed(s.db)
    && Traced(s.db.identities, s.log)
    && forall l :: 0 <= l < |s.logins| ==> LoginOk(s.log, s.logins[l])
  }

  lemma OneMoreEvent(log: seq<Event>, e: Event, k: Pair)
    ensures Openings(log + [e], k) == Openings(log, k) + if Opens(e, k) then 1 else 0
    ensures Closings(log + [e], k) == Closings(log, k) + if e.identity == k && e.Unlinked? then 1 else 0
  {
    assert (log + [e])[..|log|] == log;
  }

  lemma TracedWhenOpened(identities: map<Pair, Identity>, log: seq<Event>, e: Event, x: Identity)
    requires Traced(identities, log) && !e.Unlinked? && e.identity !in identities && x.userId == e.userId
    ensures Traced(identities[e.identity := x], log + [e])
  {
    assert e in log + [e];
    assert forall y :: y in log ==> y in log + [e];
    forall k { OneMoreEvent(log, e, k); }
  }

  lemma TracedWhenClosed(identities: map<Pair, Identity>, log: seq<Event>, e: Event)
    requires Traced(identities, log) && e.Unlinked? && e.identity in identities
    ensures Traced(identities - {e.identity}, log + [e])
  {
    assert forall y :: y in log ==> y in log + [e];
    forall k { OneMoreEvent(log, e, k); }
  }

  lemma TracedWhenTouched(identities: map<Pair, Identity>, log: seq<Event>, k: Pair, x: Identity)
    requires Traced(identities, log) && k in identities && x.userId == identities[k].userId
    ensures Traced(identities[k := x], log)
  {
  }

  lemma LoginsStayOk(logins: seq<Login>, log: seq<Event>, more: seq<Event>)
    requires forall l :: 0 <= l < |logins| ==> LoginOk(log, logins[l])
    ensures forall l :: 0 <= l < |logins| ==> LoginOk(log + more, logins[l])
  {
    assert forall y :: y in log ==> y in log + more;
  }

  lemma OtherKeeps(s: State, op: Op)
    requires Inv(s) && Can(s, Other(op))
    ensures Inv(DoOther(s, op))
  {
    OpKeepsWellFormed(s.db, op);
    var notes := if Apply(s.db, op).Ok? then Notes(op) else [];
    LoginsStayOk(s.logins, s.log, notes);
    assert s.log + [] == s.log;
    if op.LinkIdentityToUser? && Apply(s.db, op).Ok? {
      TracedWhenOpened(s.db.identities, s.log, notes[0], After(s.db, op).identities[(op.provider, op.subject)]);
    } else if op.UnlinkIdentity? && Apply(s.db, op).Ok? {
      TracedWhenClosed(s.db.identities, s.log, notes[0]);
    } else if op.TouchIdentityLogin? && Apply(s.db, op).Ok? {
      var k := (op.provider, op.subject);
      TracedWhenTouched(s.db.identities, s.log, k, s.db.identities[k].(loggedIn := true));
    } else if !ChangesIdentities(op) {
      OtherOpsKeepIdentities(s.db, op);
    }
    hide Traced, LoginOk, WellFormed;
  }

  lemma CreatingKeeps(s: State, l: nat, id: Option<string>)
    requires Inv(s) && Can(s, Advance(l, id)) && s.logins[l].pc.Creating?
    ensures Inv(DoAdvance(s, l, id))
  {
    var x := s.logins[l];
    var op := CreateUserAndIdentity(id, NewUser(x));
    OpKeepsWellFormed(s.db, op);
    if Apply(s.db, op).Ok? {
      var e := Created(id.value, IdentityOf(x));
      var next := After(s.db, op);
      assert next.identities == s.db.identities[e.identity := next.identities[e.identity]];
      TracedWhenOpened(s.db.identities, s.log, e, next.identities[e.identity]);
      LoginsStayOk(s.logins, s.log, [e]);
      assert e in s.log + [e];
    }
    hide Traced, WellFormed;
  }

  lemma TouchingKeeps(s: State, l: nat, id: Option<string>)
    requires Inv(s) && Can(s, Advance(l, id)) && s.logins[l].pc.Touching?
    ensures Inv(DoAdvance(s, l, id))
  {
    var x := s.logins[l];
    OtherKeeps(s, TouchIdentityLogin(x.provider, x.subject));
    assert s.log + [] == s.log;
    hide Traced, WellFormed, After;
  }

  lemma StepKeeps(s: State, a: Action)
    requires Inv(s) && Can(s, a)
    ensures Inv(Do(s, a))
  {
    match a
    case Other(op) => OtherKeeps(s, op);
    case Advance(l, id) =>
      if s.logins[l].pc.Creating? {
        CreatingKeeps(s, l, id);
      } else if s.logins[l].pc.Touching? {
        TouchingKeeps(s, l, id);
      } else {
        hide WellFormed, NameTaken;
      }
    case _ =>
      hide Traced, WellFormed;
  }

  lemma {:induction false} RunKeeps(s: State, run: seq<Action>)
    requires Inv(s) && Exec(s, run).Some?
    ensures Inv(Exec(s, run).value)
    decreases |run|
  {
    if run != [] {
      StepKeeps(s, run[0]);
      RunKeeps(Do(s, run[0]), run[1..]);
    }
  }

  lemma ReachableInv(s: State)
    requires Reachable(s)
    ensures Inv(s)
  {
    var run :| Exec(START, run) == Some(s);
    RunKeeps(START, run);
  }

  // ----- theorems -----

  // In every interleaving, a login only returns an account that its own identity created or
  // that an admin linked to it, and never one that was disabled when it was read.
  lemma OnlyOwnAccounts(s: State, l: nat)
    requires Reachable(s) && l < |s.logins| && s.logins[l].pc.LoggedIn?
    ensures Provenance(s.log, s.logins[l].pc.user.id, IdentityOf(s.logins[l]))
    ensures !s.logins[l].pc.user.disabled
  {
    ReachableInv(s);
  }

  // The account a login returns is as it stands in the store at that step.
  lemma ReturnsWhatItRead(s: State, l: nat, id: Option<string>)
    requires Reachable(s) && Can(s, Advance(l, id)) && DoAdvance(s, l, id).logins[l].pc.LoggedIn?
    ensures InTheStore(DoAdvance(s, l, id).db, DoAdvance(s, l, id).logins[l].pc.user)
  {
    ReachableInv(s);
    hide Reachable, Traced, LoginOk;
    var x := s.logins[l];
    if x.pc.ReadingUser? {
      assert s.db.users[x.pc.userId].id == x.pc.userId;
    } else if x.pc.Creating? {
      hide WellFormed, NameTaken;
    }
  }

  // An account that a login creates is the given person's, an ordinary user's, and is recorded
  // with the identity that opened it; nothing else is changed.
  lemma NewAccountIsRecorded(s: State, l: nat, id: Option<string>)
    requires Reachable(s) && Can(s, Advance(l, id)) && s.logins[l].pc.Creating?
    requires DoAdvance(s, l, id).logins[l].pc.LoggedIn?
    ensures var x, t := s.logins[l], DoAdvance(s, l, id);
      var u := t.logins[l].pc.user;
      var k := (x.provider, x.subject);
      && u.username == x.email && u.role == "user" && !u.disabled && u.id !in s.db.users
      && k !in s.db.identities
      && t.db == s.db.(
           users := s.db.users[u.id := u],
           identities := s.db.identities[k := Identity(x.provider, x.subject, u.id, x.email, x.displayName, false)])
  {
    hide Reachable, NameTaken;
  }

  predicate InTheStore(db: Db, u: User) {
    u.id in db.users && db.users[u.id] == u && !u.disabled
  }

  // Creations and links of an identity, less its unlinks, are what the store holds: at most one.
  lemma OpeningsAreConserved(s: State, k: Pair)
    requires Reachable(s)
    ensures Openings(s.log, k) == Closings(s.log, k) + if k in s.db.identities then 1 else 0
  {
    ReachableInv(s);
  }

  // So racing first logins of an identity that no admin unlinks create at most one account,
  // and those that succeed return the same one.
  lemma RacingLoginsShareOneAccount(s: State, l: nat, l': nat)
    requires Reachable(s) && l < |s.logins| && l' < |s.logins|
    requires s.logins[l].pc.LoggedIn? && s.logins[l'].pc.LoggedIn?
    requires IdentityOf(s.logins[l]) == IdentityOf(s.logins[l'])
    requires Closings(s.log, IdentityOf(s.logins[l])) == 0
    ensures Openings(s.log, IdentityOf(s.logins[l])) == 1
    ensures s.logins[l].pc.user.id == s.logins[l'].pc.user.id
  {
    ReachableInv(s);
    var k := IdentityOf(s.logins[l]);
    var e := Opening(s.log, s.logins[l].pc.user.id, k);
    var e' := Opening(s.log, s.logins[l'].pc.user.id, k);
    OpeningsCount(s.log, e, e', k);
  }

  function Opening(log: seq<Event>, userId: string, k: Pair): (e: Event)
    requires Provenance(log, userId, k)
    ensures e in log && Opens(e, k) && e.userId == userId
  {
    if Created(userId, k) in log then Created(userId, k) else Linked(userId, k)
  }

  lemma {:induction false} OpeningsCount(log: seq<Event>, e: Event, e': Event, k: Pair)
    requires e in log && e' in log && Opens(e, k) && Opens(e', k)
    ensures Openings(log, k) >= if e == e' then 1 else 2
  {
    var front, last := log[..|log| - 1], log[|log| - 1];
    assert log == front + [last];
    if e in front && e' in front {
      OpeningsCount(front, e, e', k);
    } else if e in front {
      OpeningsCount(front, e, e, k);
    } else if e' in front {
      OpeningsCount(front, e', e', k);
    }
  }
}

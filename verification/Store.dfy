/**
 What the operations of the store mean, on maps (internal/store/store.go). Timestamps are not
 part of the records. No id stands for a failure of the random source; otherwise an
 operation that makes a record is given an id.
 */
module Store {
  import opened Wrappers

  datatype Error = NotFound | Conflict | NoEntropy

  datatype User = User(id: string, username: string, role: string, disabled: bool)

  datatype Agent = Agent(id: string, owner: string, state: string, lastError: string)

  datatype Identity = Identity(
    provider: string, subject: string, userId: string, email: string, displayName: string, loggedIn: bool)

  // The account is the external account's id, login and type.
  datatype Connection = Connection(
    userId: string, providerId: string, scope: string, scopeId: string,
    account: (string, string, string), status: string, secret: string, revision: int)

  datatype Binding = Binding(agentId: string, providerId: string, enabled: bool, revision: int, status: string)

  datatype PluginRow = PluginRow(id: string, yaml: string, enabled: bool, revision: int)

  type Pair = (string, string)

  datatype Db = Db(
    users: map<string, User>,
    hashes: map<string, string>,          // by username
    agents: map<string, Agent>,
    identities: map<Pair, Identity>,      // by provider and subject
    connections: map<Pair, Connection>,   // by user and provider
    bindings: map<Pair, Binding>,         // by agent and provider
    plugins: map<string, PluginRow>)

  const EMPTY := Db(map[], map[], map[], map[], map[], map[], map[])

  // ----- revisions are int64 -----

  const MAX_REVISION: int := 0x7fff_ffff_ffff_ffff

  predicate IsRevision(r: int) {
    -MAX_REVISION - 1 <= r <= MAX_REVISION
  }

  function PlusOne(r: int): int {
    if r == MAX_REVISION then -MAX_REVISION - 1 else r + 1
  }

  function Bumped(r: int, given: int): int {
    if given > PlusOne(r) then given else PlusOne(r)
  }

  // ----- the invariant of the store -----

  ghost predicate UniqueNames(users: map<string, User>) {
    forall a, b :: a in users && b in users && users[a].username == users[b].username ==> a == b
  }

  ghost predicate UsersOk(users: map<string, User>) {
    UniqueNames(users) && forall id :: id in users ==> users[id].id == id != ""
  }

  ghost predicate IdentitiesOk(identities: map<Pair, Identity>, users: map<string, User>) {
    forall k :: k in identities ==>
      (identities[k].provider, identities[k].subject) == k && identities[k].userId in users
  }

  ghost predicate OthersOk(db: Db) {
    && (forall id :: id in db.agents ==> db.agents[id].id == id)
    && (forall k :: k in db.connections ==> (db.connections[k].userId, db.connections[k].providerId) == k)
    && (forall k :: k in db.bindings ==> (db.bindings[k].agentId, db.bindings[k].providerId) == k)
    && (forall id :: id in db.plugins ==> db.plugins[id].id == id)
  }

  // Usernames are unique, identities name existing users, and every record is filed under
  // its own key.
  ghost predicate WellFormed(db: Db) {
    UsersOk(db.users) && IdentitiesOk(db.identities, db.users) && OthersOk(db)
  }

  ghost predicate NameTaken(db: Db, name: string) {
    exists id :: id in db.users && db.users[id].username == name
  }

  ghost function IdNamed(db: Db, name: string): string
    requires NameTaken(db, name)
  {
    var id :| id in db.users && db.users[id].username == name; id
  }

  // ----- the operations -----

  datatype Op =
    | CreateUser(id: Option<string>, username: string, passwordHash: string, role: string)
    | UpdateUser(userId: string, disabled: Option<bool>, newRole: Option<string>)
    | BootstrapAdmin(id: Option<string>, username: string, passwordHash: string)
    | CreateAgent(id: Option<string>, owner: string)
    | DeleteAgent(agentId: string)
    | CreateUserAndIdentity(id: Option<string>, args: CreateArgs)
    | TouchIdentityLogin(provider: string, subject: string)
    | LinkIdentityToUser(userId: string, provider: string, subject: string, email: string, displayName: string)
    | UnlinkIdentity(userId: string, provider: string, subject: string)
    | UpsertConnection(connection: Connection)
    | DeleteConnection(userId: string, providerId: string)
    | UpsertBinding(agentId: string, providerId: string, enabled: bool, revision: int, status: string)
    | UpsertPlugin(manifest: PluginRow)
    | DeletePlugin(pluginId: string)

  datatype CreateArgs = CreateArgs(
    username: string, role: string, provider: string, subject: string, email: string, displayName: string)

  // newID gives an id that no record has.
  predicate FreshFor(db: Db, id: Option<string>) {
    id.Some? ==> id.value !in db.users && id.value !in db.agents && id.value != ""
  }

  predicate IsFresh(db: Db, op: Op) {
    match op
    case CreateUser(id, _, _, _) => FreshFor(db, id)
    case BootstrapAdmin(id, _, _) => FreshFor(db, id)
    case CreateAgent(id, _) => FreshFor(db, id)
    case CreateUserAndIdentity(id, _) => FreshFor(db, id)
    case _ => true
  }

  function WithHash(db: Db, username: string, passwordHash: string): Db {
    if passwordHash == "" then db else db.(hashes := db.hashes[username := passwordHash])
  }

  ghost function CreatedUser(db: Db, id: Option<string>, username: string, passwordHash: string, role: string): Result<Db, Error> {
    if NameTaken(db, username) then Err(Conflict)
    else match id
      case None => Err(NoEntropy)
      case Some(id) =>
        Ok(WithHash(db.(users := db.users[id := User(id, username, role, false)]), username, passwordHash))
  }

  function UpdatedUser(db: Db, userId: string, disabled: Option<bool>, role: Option<string>): Result<Db, Error> {
    if userId !in db.users then Err(NotFound)
    else
      var u := db.users[userId];
      var v := u.(disabled := if disabled.Some? then disabled.value else u.disabled,
                  role := if role.Some? then role.value else u.role);
      Ok(db.(users := db.users[userId := v]))
  }

  ghost function BootstrappedAdmin(db: Db, id: Option<string>, username: string, passwordHash: string): Result<Db, Error> {
    if NameTaken(db, username) then
      var u := IdNamed(db, username);
      Ok(WithHash(db.(users := db.users[u := db.users[u].(disabled := false, role := "admin")]), username, passwordHash))
    else CreatedUser(db, id, username, passwordHash, "admin")
  }

  function CreatedAgent(db: Db, id: Option<string>, owner: string): Result<Db, Error> {
    match id
    case None => Err(NoEntropy)
    case Some(id) => Ok(db.(agents := db.agents[id := Agent(id, owner, "idle", "")]))
  }

  ghost function DeletedAgent(db: Db, agentId: string): Result<Db, Error> {
    if agentId !in db.agents then Err(NotFound)
    else Ok(db.(agents := db.agents - {agentId},
                bindings := map k | k in db.bindings && db.bindings[k].agentId != agentId :: db.bindings[k]))
  }

  ghost function CreatedUserAndIdentity(db: Db, id: Option<string>, args: CreateArgs): Result<Db, Error> {
    if NameTaken(db, args.username) || (args.provider, args.subject) in db.identities then Err(Conflict)
    else match id
      case None => Err(NoEntropy)
      case Some(id) =>
        Ok(db.(users := db.users[id := User(id, args.username, args.role, false)],
               identities := db.identities[(args.provider, args.subject) :=
                 Identity(args.provider, args.subject, id, args.email, args.displayName, false)]))
  }

  function TouchedIdentity(db: Db, provider: string, subject: string): Result<Db, Error> {
    var k := (provider, subject);
    if k !in db.identities then Err(NotFound)
    else Ok(db.(identities := db.identities[k := db.identities[k].(loggedIn := true)]))
  }

  function LinkedIdentity(db: Db, userId: string, provider: string, subject: string, email: string, displayName: string): Result<Db, Error> {
    if userId !in db.users then Err(NotFound)
    else if (provider, subject) in db.identities then Err(Conflict)
    else Ok(db.(identities := db.identities[(provider, subject) :=
              Identity(provider, subject, userId, email, displayName, false)]))
  }

  function UnlinkedIdentity(db: Db, userId: string, provider: string, subject: string): Result<Db, Error> {
    var k := (provider, subject);
    if k !in db.identities || db.identities[k].userId != userId then Err(NotFound)
    else Ok(db.(identities := db.identities - {k}))
  }

  function Scoped(c: Connection): Connection {
    c.(scope := if c.scope == "" then "user" else c.scope,
       scopeId := if c.scopeId == "" then c.userId else c.scopeId)
  }

  function UpsertedConnection(db: Db, connection: Connection): Connection {
    var k, c := (connection.userId, connection.providerId), Scoped(connection);
    if k in db.connections then c.(revision := Bumped(db.connections[k].revision, c.revision))
    else c.(revision := if c.revision == 0 then 1 else c.revision)
  }

  // Deletes the bindings of that provider for every agent, whoever owns it (store.go:537-544).
  ghost function DeletedConnection(db: Db, userId: string, providerId: string): Result<Db, Error> {
    if (userId, providerId) !in db.connections then Err(NotFound)
    else Ok(db.(connections := db.connections - {(userId, providerId)},
                bindings := map k | k in db.bindings && db.bindings[k].providerId != providerId :: db.bindings[k]))
  }

  function UpsertedBinding(db: Db, agentId: string, providerId: string, enabled: bool, revision: int, status: string): Binding {
    var k := (agentId, providerId);
    Binding(agentId, providerId, enabled,
      if k in db.bindings then Bumped(db.bindings[k].revision, revision) else 1, status)
  }

  function UpsertedPlugin(db: Db, manifest: PluginRow): PluginRow {
    manifest.(revision :=
      if manifest.id in db.plugins then PlusOne(db.plugins[manifest.id].revision) else 1)
  }

  ghost function Apply(db: Db, op: Op): Result<Db, Error> {
    match op
    case CreateUser(id, username, hash, role) => CreatedUser(db, id, username, hash, role)
    case UpdateUser(userId, disabled, role) => UpdatedUser(db, userId, disabled, role)
    case BootstrapAdmin(id, username, hash) => BootstrappedAdmin(db, id, username, hash)
    case CreateAgent(id, owner) => CreatedAgent(db, id, owner)
    case DeleteAgent(agentId) => DeletedAgent(db, agentId)
    case CreateUserAndIdentity(id, args) => CreatedUserAndIdentity(db, id, args)
    case TouchIdentityLogin(p, s) => TouchedIdentity(db, p, s)
    case LinkIdentityToUser(userId, p, s, email, name) => LinkedIdentity(db, userId, p, s, email, name)
    case UnlinkIdentity(userId, p, s) => UnlinkedIdentity(db, userId, p, s)
    case UpsertConnection(c) =>
      Ok(db.(connections := db.connections[(c.userId, c.providerId) := UpsertedConnection(db, c)]))
    case DeleteConnection(userId, providerId) => DeletedConnection(db, userId, providerId)
    case UpsertBinding(a, p, enabled, revision, status) =>
      Ok(db.(bindings := db.bindings[(a, p) := UpsertedBinding(db, a, p, enabled, revision, status)]))
    case UpsertPlugin(m) => Ok(db.(plugins := db.plugins[m.id := UpsertedPlugin(db, m)]))
    case DeletePlugin(id) =>
      if id in db.plugins then Ok(db.(plugins := db.plugins - {id})) else Err(NotFound)
  }

  // An operation that fails changes nothing.
  ghost function After(db: Db, op: Op): Db {
    match Apply(db, op)
    case Ok(next) => next
    case Err(_) => db
  }

  ghost function Failure(db: Db, op: Op): Option<Error> {
    match Apply(db, op)
    case Ok(_) => None
    case Err(e) => Some(e)
  }

  ghost function Exec(db: Db, ops: seq<Op>): Db
    decreases |ops|
  {
    if ops == [] then db else Exec(After(db, ops[0]), ops[1..])
  }

  ghost predicate AllFresh(db: Db, ops: seq<Op>)
    decreases |ops|
  {
    ops == [] || (IsFresh(db, ops[0]) && AllFresh(After(db, ops[0]), ops[1..]))
  }

  // ----- what every operation keeps -----

  predicate ChangesUsers(op: Op) {
    op.CreateUser? || op.UpdateUser? || op.BootstrapAdmin? || op.CreateUserAndIdentity?
  }

  // An added user has a free name; a changed one keeps its name.
  ghost predicate OneUserSet(before: map<string, User>, after: map<string, User>) {
    exists u: User :: after == before[u.id := u] && MaySet(before, u)
  }

  ghost predicate MaySet(users: map<string, User>, u: User) {
    if u.id in users then users[u.id].username == u.username
    else u.id != "" && forall id :: id in users ==> users[id].username != u.username
  }

  lemma AddingSetsOneUser(db: Db, op: Op)
    requires UsersOk(db.users) && IsFresh(db, op) && (op.CreateUser? || op.CreateUserAndIdentity?)
    ensures After(db, op).users == db.users || OneUserSet(db.users, After(db, op).users)
  {
    var users := After(db, op).users;
    if users != db.users {
      var id := op.id.value;
      assert MaySet(db.users, users[id]) && users == db.users[users[id].id := users[id]];
    }
  }

  lemma BootstrapSetsOneUser(db: Db, op: Op)
    requires UsersOk(db.users) && IsFresh(db, op) && op.BootstrapAdmin?
    ensures After(db, op).users == db.users || OneUserSet(db.users, After(db, op).users)
  {
    var users := After(db, op).users;
    if NameTaken(db, op.username) {
      var id := IdNamed(db, op.username);
      assert MaySet(db.users, users[id]) && users == db.users[users[id].id := users[id]];
    } else {
      AddingSetsOneUser(db, CreateUser(op.id, op.username, op.passwordHash, "admin"));
    }
  }

  lemma UserOpsSetOneUser(db: Db, op: Op)
    requires UsersOk(db.users) && IsFresh(db, op) && ChangesUsers(op)
    ensures After(db, op).users == db.users || OneUserSet(db.users, After(db, op).users)
  {
    if op.BootstrapAdmin? {
      BootstrapSetsOneUser(db, op);
    } else if op.UpdateUser? {
      if op.userId in db.users {
        var users := After(db, op).users;
        assert MaySet(db.users, users[op.userId]) && users == db.users[users[op.userId].id := users[op.userId]];
      }
    } else {
      AddingSetsOneUser(db, op);
    }
  }

  lemma OtherOpsKeepUsers(db: Db, op: Op)
    requires !ChangesUsers(op)
    ensures After(db, op).users == db.users
  {
  }

  lemma OneUserSetIsOk(before: map<string, User>, after: map<string, User>)
    requires UsersOk(before) && OneUserSet(before, after)
    ensures UsersOk(after) && before.Keys <= after.Keys
  {
    var u: User :| after == before[u.id := u] && MaySet(before, u);
    forall a, b | a in after && b in after && after[a].username == after[b].username ensures a == b {
      assert a != u.id ==> a in before && after[a] == before[a];
      assert b != u.id ==> b in before && after[b] == before[b];
    }
  }

  lemma OpKeepsUsers(db: Db, op: Op)
    requires UsersOk(db.users) && IsFresh(db, op)
    ensures UsersOk(After(db, op).users) && db.users.Keys <= After(db, op).users.Keys
  {
    if ChangesUsers(op) { UserOpsSetOneUser(db, op); } else { OtherOpsKeepUsers(db, op); }
    hide After, IsFresh, UsersOk, OneUserSet, ChangesUsers;
    if After(db, op).users != db.users { OneUserSetIsOk(db.users, After(db, op).users); }
  }

  predicate ChangesIdentities(op: Op) {
    op.CreateUserAndIdentity? || op.TouchIdentityLogin? || op.LinkIdentityToUser? || op.UnlinkIdentity?
  }

  lemma OtherOpsKeepIdentities(db: Db, op: Op)
    requires !ChangesIdentities(op)
    ensures After(db, op).identities == db.identities
  {
  }

  // An identity that is added or changed names an existing user; or one is taken out.
  ghost predicate OneIdentitySet(before: map<Pair, Identity>, after: map<Pair, Identity>, users: map<string, User>) {
    || (exists x: Identity :: x.userId in users && after == before[(x.provider, x.subject) := x])
    || (exists k: Pair :: after == before - {k})
  }

  lemma OneIdentitySetIsOk(before: map<Pair, Identity>, after: map<Pair, Identity>, users: map<string, User>)
    requires IdentitiesOk(before, users) && OneIdentitySet(before, after, users)
    ensures IdentitiesOk(after, users)
  {
  }

  lemma IdentityOpsSetOneIdentity(db: Db, op: Op)
    requires WellFormed(db) && ChangesIdentities(op) && Apply(db, op).Ok?
    ensures OneIdentitySet(db.identities, After(db, op).identities, After(db, op).users)
  {
    hide UsersOk, OthersOk;
    var next := After(db, op);
    match op
    case UnlinkIdentity(_, p, s) =>
      assert next.identities == db.identities - {(p, s)};
    case CreateUserAndIdentity(_, args) =>
      var x := next.identities[(args.provider, args.subject)];
      assert x.userId in next.users && next.identities == db.identities[(x.provider, x.subject) := x];
    case TouchIdentityLogin(p, s) =>
      var x := next.identities[(p, s)];
      assert x.userId in next.users && next.identities == db.identities[(x.provider, x.subject) := x];
    case LinkIdentityToUser(_, p, s, _, _) =>
      var x := next.identities[(p, s)];
      assert x.userId in next.users && next.identities == db.identities[(x.provider, x.subject) := x];
  }

  lemma OpKeepsIdentities(db: Db, op: Op)
    requires WellFormed(db) && IsFresh(db, op)
    ensures IdentitiesOk(After(db, op).identities, After(db, op).users)
  {
    hide UsersOk, OthersOk, IsFresh, Apply, OneIdentitySet;
    OpKeepsUsers(db, op);
    if ChangesIdentities(op) && Apply(db, op).Ok? {
      IdentityOpsSetOneIdentity(db, op);
      OneIdentitySetIsOk(db.identities, After(db, op).identities, After(db, op).users);
    } else if !ChangesIdentities(op) {
      OtherOpsKeepIdentities(db, op);
    }
  }

  predicate ChangesOthers(op: Op) {
    !op.CreateUser? && !op.UpdateUser? && !op.BootstrapAdmin? && !ChangesIdentities(op)
  }

  lemma OtherOpsKeepOthers(db: Db, op: Op)
    requires !ChangesOthers(op)
    ensures var next := After(db, op);
      next == db.(users := next.users, hashes := next.hashes, identities := next.identities)
  {
  }

  lemma OpKeepsOthers(db: Db, op: Op)
    requires OthersOk(db)
    ensures OthersOk(After(db, op))
  {
    if !ChangesOthers(op) {
      OtherOpsKeepOthers(db, op);
      hide After;
    }
  }

  lemma OpKeepsWellFormed(db: Db, op: Op)
    requires WellFormed(db) && IsFresh(db, op)
    ensures WellFormed(After(db, op))
  {
    OpKeepsUsers(db, op);
    OpKeepsIdentities(db, op);
    OpKeepsOthers(db, op);
    hide UsersOk, IdentitiesOk, OthersOk, After;
  }

  lemma {:induction false} RunKeepsWellFormed(db: Db, ops: seq<Op>)
    requires WellFormed(db) && AllFresh(db, ops)
    ensures WellFormed(Exec(db, ops))
    decreases |ops|
  {
    if ops != [] {
      OpKeepsWellFormed(db, ops[0]);
      RunKeepsWellFormed(After(db, ops[0]), ops[1..]);
    }
  }

  // ----- revisions -----

  // For RevisionCountsUpserts: an upsert raises the revision if and only if that was not the
  // largest there is.
  lemma BumpRaisesIff(r: int, given: int)
    requires IsRevision(r) && IsRevision(given)
    ensures IsRevision(Bumped(r, given))
    ensures Bumped(r, given) > r <==> r < MAX_REVISION
    ensures r < MAX_REVISION ==> Bumped(r, given) >= given
  {
  }

  // The records that have a revision.
  datatype Record = ConnectionOf(userAndProvider: Pair) | BindingOf(agentAndProvider: Pair) | PluginOf(id: string)

  function RevisionOf(db: Db, r: Record): Option<int> {
    match r
    case ConnectionOf(k) => if k in db.connections then Some(db.connections[k].revision) else None
    case BindingOf(k) => if k in db.bindings then Some(db.bindings[k].revision) else None
    case PluginOf(id) => if id in db.plugins then Some(db.plugins[id].revision) else None
  }

  predicate Upserts(op: Op, r: Record) {
    match op
    case UpsertConnection(c) => r == ConnectionOf((c.userId, c.providerId))
    case UpsertBinding(agentId, providerId, _, _, _) => r == BindingOf((agentId, providerId))
    case UpsertPlugin(m) => r == PluginOf(m.id)
    case _ => false
  }

  // How often the run upserts the record.
  ghost function Upsertions(ops: seq<Op>, r: Record): nat {
    if ops == [] then 0 else (if Upserts(ops[0], r) then 1 else 0) + Upsertions(ops[1..], r)
  }

  // The record lives through the whole run.
  ghost predicate Lives(db: Db, ops: seq<Op>, r: Record)
    decreases |ops|
  {
    RevisionOf(db, r).Some? && (ops == [] || Lives(After(db, ops[0]), ops[1..], r))
  }

  // No upsert of it meets the largest revision.
  ghost predicate Unexhausted(db: Db, ops: seq<Op>, r: Record)
    decreases |ops|
  {
    ops == [] ||
    (&& (Upserts(ops[0], r) ==> RevisionOf(db, r) != Some(MAX_REVISION))
     && Unexhausted(After(db, ops[0]), ops[1..], r))
  }

  lemma OneOpOnARecord(db: Db, op: Op, r: Record)
    requires RevisionOf(db, r).Some? && RevisionOf(After(db, op), r).Some?
    requires Upserts(op, r) ==> RevisionOf(db, r) != Some(MAX_REVISION)
    ensures var before, after := RevisionOf(db, r).value, RevisionOf(After(db, op), r).value;
      if Upserts(op, r) then after > before else after == before
  {
    if OnRecords(op) {
      RecordOpOnARecord(db, op, r);
    } else {
      RecordsStay(db, op);
      hide After;
    }
  }

  predicate OnRecords(op: Op) {
    op.UpsertConnection? || op.DeleteConnection? || op.UpsertBinding? || op.UpsertPlugin? || op.DeletePlugin? || op.DeleteAgent?
  }

  lemma RecordsStay(db: Db, op: Op)
    requires !OnRecords(op)
    ensures var next := After(db, op);
      next.connections == db.connections && next.bindings == db.bindings && next.plugins == db.plugins
  {
    if !ChangesOthers(op) { OtherOpsKeepOthers(db, op); } else { AgentKeepsRecords(db, op); }
    hide After;
  }

  lemma AgentKeepsRecords(db: Db, op: Op)
    requires op.CreateAgent?
    ensures var next := After(db, op);
      next.connections == db.connections && next.bindings == db.bindings && next.plugins == db.plugins
  {
  }

  lemma RecordOpOnARecord(db: Db, op: Op, r: Record)
    requires OnRecords(op) && RevisionOf(db, r).Some? && RevisionOf(After(db, op), r).Some?
    requires Upserts(op, r) ==> RevisionOf(db, r) != Some(MAX_REVISION)
    ensures var before, after := RevisionOf(db, r).value, RevisionOf(After(db, op), r).value;
      if Upserts(op, r) then after > before else after == before
  {
  }

  // While a record lives its revision grows with every upsert of it, and with nothing else.
  lemma {:induction false} RevisionCountsUpserts(db: Db, ops: seq<Op>, r: Record)
    requires Lives(db, ops, r) && Unexhausted(db, ops, r)
    ensures RevisionOf(Exec(db, ops), r).Some?
    ensures RevisionOf(Exec(db, ops), r).value >= RevisionOf(db, r).value + Upsertions(ops, r)
    ensures Upsertions(ops, r) == 0 ==> RevisionOf(Exec(db, ops), r) == RevisionOf(db, r)
    decreases |ops|
  {
    hide After, Upserts, RevisionOf;
    if ops != [] {
      assert Lives(After(db, ops[0]), ops[1..], r);
      OneOpOnARecord(db, ops[0], r);
      RevisionCountsUpserts(After(db, ops[0]), ops[1..], r);
    }
  }

  // ----- the last write is read -----

  // What a record says, but for its revision.
  datatype Content =
    | ConnectionText(scope: string, scopeId: string, account: (string, string, string), status: string, secret: string)
    | BindingText(enabled: bool, status: string)
    | PluginText(yaml: string, enabled: bool)

  function ContentOf(db: Db, r: Record): Option<Content> {
    match r
    case ConnectionOf(k) =>
      if k !in db.connections then None
      else
        var c := db.connections[k];
        Some(ConnectionText(c.scope, c.scopeId, c.account, c.status, c.secret))
    case BindingOf(k) =>
      if k in db.bindings then Some(BindingText(db.bindings[k].enabled, db.bindings[k].status)) else None
    case PluginOf(id) =>
      if id in db.plugins then Some(PluginText(db.plugins[id].yaml, db.plugins[id].enabled)) else None
  }

  // What an upsert writes; a connection without a scope is the user's own.
  function Given(op: Op, r: Record): (c: Content)
    requires Upserts(op, r)
  {
    match op
    case UpsertConnection(c) =>
      ConnectionText(
        if c.scope == "" then "user" else c.scope, if c.scopeId == "" then c.userId else c.scopeId,
        c.account, c.status, c.secret)
    case UpsertBinding(_, _, enabled, _, status) => BindingText(enabled, status)
    case UpsertPlugin(m) => PluginText(m.yaml, m.enabled)
  }

  lemma UpsertIsRead(db: Db, op: Op, r: Record)
    requires Upserts(op, r)
    ensures ContentOf(After(db, op), r) == Some(Given(op, r))
  {
  }

  lemma OthersKeepContent(db: Db, op: Op, r: Record)
    requires !Upserts(op, r) && RevisionOf(db, r).Some? && RevisionOf(After(db, op), r).Some?
    ensures ContentOf(After(db, op), r) == ContentOf(db, r)
  {
    if OnRecords(op) {
      RecordOpKeepsContent(db, op, r);
    } else {
      RecordsStay(db, op);
      hide After;
    }
  }

  lemma RecordOpKeepsContent(db: Db, op: Op, r: Record)
    requires OnRecords(op) && !Upserts(op, r) && RevisionOf(db, r).Some? && RevisionOf(After(db, op), r).Some?
    ensures ContentOf(After(db, op), r) == ContentOf(db, r)
  {
  }

  lemma {:induction false} UnwrittenStays(db: Db, ops: seq<Op>, r: Record)
    requires Lives(db, ops, r) && Upsertions(ops, r) == 0
    ensures ContentOf(Exec(db, ops), r) == ContentOf(db, r)
    decreases |ops|
  {
    hide After, Upserts, RevisionOf, ContentOf;
    if ops != [] {
      assert Lives(After(db, ops[0]), ops[1..], r);
      OthersKeepContent(db, ops[0], r);
      UnwrittenStays(After(db, ops[0]), ops[1..], r);
    }
  }

  // As long as a record lives, whatever else happens, it says what it was last given.
  lemma LastWriteIsRead(db: Db, op: Op, ops: seq<Op>, r: Record)
    requires Upserts(op, r) && Lives(After(db, op), ops, r) && Upsertions(ops, r) == 0
    ensures ContentOf(Exec(db, [op] + ops), r) == Some(Given(op, r))
  {
    UpsertIsRead(db, op, r);
    UnwrittenStays(After(db, op), ops, r);
    assert ([op] + ops)[1..] == ops;
    hide After, Upserts, ContentOf, Given, Lives, Upsertions;
  }

  // For DbRegistry.RecreatedRowIsMissed: a plugin deleted and uploaded again is back at
  // revision 1.
  lemma RecreatedPluginHasRevisionOne(db: Db, m: PluginRow)
    requires m.id in db.plugins
    ensures After(After(db, DeletePlugin(m.id)), UpsertPlugin(m)).plugins == db.plugins[m.id := m.(revision := 1)]
  {
  }

  // ----- whose bindings a deleted connection takes with it -----

  predicate IsAgentOf(db: Db, userId: string, agentId: string) {
    agentId in db.agents && db.agents[agentId].owner == userId
  }

  // What store.go:537 says: the provider's bindings of the user's own agents go.
  ghost function OwnBindingsRemoved(db: Db, userId: string, providerId: string): map<Pair, Binding> {
    map k | k in db.bindings && !(k.1 == providerId && IsAgentOf(db, userId, k.0)) :: db.bindings[k]
  }

  // A deletion does that if and only if no other agent has a binding of that provider.
  lemma DeletionIsOwnIff(db: Db, userId: string, providerId: string)
    requires WellFormed(db) && (userId, providerId) in db.connections
    ensures After(db, DeleteConnection(userId, providerId)).bindings == OwnBindingsRemoved(db, userId, providerId)
      <==> forall agentId :: (agentId, providerId) in db.bindings ==> IsAgentOf(db, userId, agentId)
  {
    var after, own := After(db, DeleteConnection(userId, providerId)).bindings, OwnBindingsRemoved(db, userId, providerId);
    assert forall k :: k in after <==> k in db.bindings && k.1 != providerId;
    if after == own {
      forall agentId | (agentId, providerId) in db.bindings ensures IsAgentOf(db, userId, agentId) {
        assert (agentId, providerId) !in after;
      }
    }
  }

  const ANN := UpsertConnection(Connection("ann", "git", "", "", ("", "", ""), "connected", "", 0))
  const BOB := UpsertConnection(Connection("bob", "git", "", "", ("", "", ""), "connected", "", 0))
  const BOBS_AGENT := CreateAgent(Some("b1"), "bob")
  const BOBS_BINDING := UpsertBinding("b1", "git", true, 1, "active")

  // Two users have a connection to one provider: deleting the first user's takes the second
  // user's binding.
  lemma OtherUsersBindingGoes()
    ensures var ops := [ANN, BOB, BOBS_AGENT, BOBS_BINDING];
      var db := Exec(EMPTY, ops);
      && AllFresh(EMPTY, ops)
      && ("b1", "git") in db.bindings && IsAgentOf(db, "bob", "b1")
      && Apply(db, DeleteConnection("ann", "git")).Ok?
      && After(db, DeleteConnection("ann", "git")).bindings == map[]
  {
    ExecFour(EMPTY, ANN, BOB, BOBS_AGENT, BOBS_BINDING);
    var d2 := After(After(EMPTY, ANN), BOB);
    assert ("ann", "git") in d2.connections && d2.agents == map[] && d2.users == map[] && d2.bindings == map[];
    BindingOfBob(d2);
    hide After, Exec, AllFresh;
  }

  lemma BindingOfBob(db: Db)
    requires ("ann", "git") in db.connections && db.agents == map[] && db.users == map[] && db.bindings == map[]
    ensures var d := After(After(db, BOBS_AGENT), BOBS_BINDING);
      && IsFresh(db, BOBS_AGENT)
      && ("b1", "git") in d.bindings && IsAgentOf(d, "bob", "b1")
      && Apply(d, DeleteConnection("ann", "git")).Ok?
      && After(d, DeleteConnection("ann", "git")).bindings == map[]
  {
    var d := After(After(db, BOBS_AGENT), BOBS_BINDING);
    assert d.bindings == map[("b1", "git") := Binding("b1", "git", true, 1, "active")];
    assert d.connections == db.connections;
  }

  lemma ExecFour(db: Db, a: Op, b: Op, c: Op, d: Op)
    ensures Exec(db, [a, b, c, d]) == After(After(After(After(db, a), b), c), d)
    ensures AllFresh(db, [a, b, c, d]) <==>
      IsFresh(db, a) && IsFresh(After(db, a), b) && IsFresh(After(After(db, a), b), c)
      && IsFresh(After(After(After(db, a), b), c), d)
  {
    hide After, IsFresh;
    assert [a, b, c, d][1..] == [b, c, d] && [b, c, d][1..] == [c, d] && [c, d][1..] == [d] && [d][1..] == [];
    var d1 := After(db, a);
    var d2 := After(d1, b);
    var d3 := After(d2, c);
    assert Exec(d3, [d]) == After(d3, d);
    assert Exec(d2, [c, d]) == After(d3, d) && Exec(d1, [b, c, d]) == After(d3, d);
    assert AllFresh(d3, [d]) <==> IsFresh(d3, d);
    assert AllFresh(d2, [c, d]) <==> IsFresh(d2, c) && IsFresh(d3, d);
  }
}

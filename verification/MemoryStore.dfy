/**
 Memory (internal/store/store.go): the store that keeps its records in slices, which it scans
 for a key and edits in place. Each method is proved to do what the operation means on maps.
 */
module MemoryStore {
  import opened Wrappers
  import opened Tables
  import opened Store

  function UserKey(u: User): string { u.id }
  function AgentKey(a: Agent): string { a.id }
  function IdentityKey(x: Identity): Pair { (x.provider, x.subject) }
  function ConnectionKey(c: Connection): Pair { (c.userId, c.providerId) }
  function BindingKey(b: Binding): Pair { (b.agentId, b.providerId) }

  ghost function Answer<T>(failure: Option<Error>, value: T): Result<T, Error> {
    match failure
    case None => Ok(value)
    case Some(e) => Err(e)
  }

  lemma NameTakenIff(users: seq<User>, db: Db, name: string)
    requires DistinctKeys(users, UserKey) && db.users == Index(users, UserKey) && UsersOk(db.users)
    ensures NameTaken(db, name) <==> exists i :: 0 <= i < |users| && users[i].username == name
    ensures forall i :: 0 <= i < |users| && users[i].username == name ==>
      users[i].id == IdNamed(db, name) && db.users[users[i].id] == users[i]
  {
    IndexIsExact(users, UserKey);
    var index := Index(users, UserKey);
    hide Index;
    if NameTaken(db, name) {
      var id := IdNamed(db, name);
      var i :| 0 <= i < |users| && users[i] == index[id];
      assert users[i].username == name;
    }
    forall i | 0 <= i < |users| && users[i].username == name
      ensures NameTaken(db, name) && users[i].id == IdNamed(db, name) && db.users[users[i].id] == users[i]
    {
      var id := users[i].id;
      assert UserKey(users[i]) == id && id in db.users && db.users[id].username == name;
    }
  }

  // ----- what the operations come to -----

  lemma UserCreation(db: Db, id: Option<string>, username: string, passwordHash: string, role: string)
    ensures var op := Op.CreateUser(id, username, passwordHash, role);
      if NameTaken(db, username) then After(db, op) == db && Failure(db, op) == Some(Conflict)
      else if id.None? then After(db, op) == db && Failure(db, op) == Some(NoEntropy)
      else
        && Failure(db, op) == None
        && After(db, op) == db.(
             users := db.users[id.value := User(id.value, username, role, false)],
             hashes := if passwordHash == "" then db.hashes else db.hashes[username := passwordHash])
  {
  }

  lemma AgentCreation(db: Db, id: Option<string>, owner: string)
    ensures var op := Op.CreateAgent(id, owner);
      if id.None? then After(db, op) == db && Failure(db, op) == Some(NoEntropy)
      else
        && Failure(db, op) == None
        && After(db, op) == db.(agents := db.agents[id.value := Agent(id.value, owner, "idle", "")])
  {
  }

  lemma AccountCreation(db: Db, id: Option<string>, args: CreateArgs)
    ensures var op, k := Op.CreateUserAndIdentity(id, args), (args.provider, args.subject);
      if NameTaken(db, args.username) || k in db.identities then After(db, op) == db && Failure(db, op) == Some(Conflict)
      else if id.None? then After(db, op) == db && Failure(db, op) == Some(NoEntropy)
      else
        && Failure(db, op) == None
        && After(db, op) == db.(
             users := db.users[id.value := User(id.value, args.username, args.role, false)],
             identities := db.identities[k :=
               Identity(args.provider, args.subject, id.value, args.email, args.displayName, false)])
  {
  }

  lemma IdentityLink(db: Db, userId: string, provider: string, subject: string, email: string, displayName: string)
    ensures var op, k := Op.LinkIdentityToUser(userId, provider, subject, email, displayName), (provider, subject);
      if userId !in db.users then After(db, op) == db && Failure(db, op) == Some(NotFound)
      else if k in db.identities then After(db, op) == db && Failure(db, op) == Some(Conflict)
      else
        && Failure(db, op) == None
        && After(db, op) == db.(identities := db.identities[k :=
             Identity(provider, subject, userId, email, displayName, false)])
  {
  }

  lemma IdentityUnlink(db: Db, userId: string, provider: string, subject: string)
    ensures var op, k := Op.UnlinkIdentity(userId, provider, subject), (provider, subject);
      if k in db.identities && db.identities[k].userId == userId then
        Failure(db, op) == None && After(db, op) == db.(identities := db.identities - {k})
      else After(db, op) == db && Failure(db, op) == Some(NotFound)
  {
  }

  lemma IdentityTouch(db: Db, provider: string, subject: string)
    ensures var op, k := Op.TouchIdentityLogin(provider, subject), (provider, subject);
      if k !in db.identities then After(db, op) == db && Failure(db, op) == Some(NotFound)
      else
        && Failure(db, op) == None
        && After(db, op) == db.(identities := db.identities[k := db.identities[k].(loggedIn := true)])
  {
  }

  // The next revision, in 64 bits.
  predicate IsNext(r: int, next: int) {
    next == if r == 0x7fff_ffff_ffff_ffff then -0x8000_0000_0000_0000 else r + 1
  }

  // What is filed is what was given, with the scope of the user if none was given.
  predicate KeepsConnection(filed: Connection, given: Connection) {
    && filed.userId == given.userId && filed.providerId == given.providerId
    && filed.account == given.account && filed.status == given.status && filed.secret == given.secret
    && filed.scope == (if given.scope == "" then "user" else given.scope)
    && filed.scopeId == (if given.scopeId == "" then given.userId else given.scopeId)
  }

  lemma ConnectionUpsert(db: Db, given: Connection)
    ensures var k := (given.userId, given.providerId);
      var next := After(db, UpsertConnection(given));
      && k in next.connections && next == db.(connections := db.connections[k := next.connections[k]])
      && next.connections[k] == UpsertedConnection(db, given) && KeepsConnection(next.connections[k], given)
      && var revision := next.connections[k].revision;
         if k !in db.connections then revision == if given.revision == 0 then 1 else given.revision
         else forall next :: IsNext(db.connections[k].revision, next) ==>
           revision == if given.revision > next then given.revision else next
  {
  }

  lemma BindingUpsert(db: Db, agentId: string, providerId: string, enabled: bool, revision: int, status: string)
    ensures var k := (agentId, providerId);
      var next := After(db, UpsertBinding(agentId, providerId, enabled, revision, status));
      && k in next.bindings && next == db.(bindings := db.bindings[k := next.bindings[k]])
      && var b := next.bindings[k];
         && b.agentId == agentId && b.providerId == providerId && b.enabled == enabled && b.status == status
         && if k !in db.bindings then b.revision == 1
            else forall next :: IsNext(db.bindings[k].revision, next) ==>
              b.revision == if revision > next then revision else next
  {
  }

  lemma PluginUpsert(db: Db, given: PluginRow)
    ensures var next := After(db, UpsertPlugin(given));
      && given.id in next.plugins && next == db.(plugins := db.plugins[given.id := next.plugins[given.id]])
      && var m := next.plugins[given.id];
         && m.id == given.id && m.yaml == given.yaml && m.enabled == given.enabled
         && if given.id in db.plugins then IsNext(db.plugins[given.id].revision, m.revision) else m.revision == 1
  {
  }

  lemma PluginDeletion(db: Db, id: string)
    ensures var op := DeletePlugin(id);
      if id in db.plugins then Failure(db, op) == None && After(db, op) == db.(plugins := db.plugins - {id})
      else After(db, op) == db && Failure(db, op) == Some(NotFound)
  {
  }

  lemma AgentDeletion(db: Db, agentId: string)
    ensures var op := Op.DeleteAgent(agentId);
      if agentId !in db.agents then After(db, op) == db && Failure(db, op) == Some(NotFound)
      else
        && Failure(db, op) == None
        && After(db, op) == db.(agents := db.agents - {agentId},
             bindings := map k | k in db.bindings && db.bindings[k].agentId != agentId :: db.bindings[k])
  {
  }

  lemma ConnectionDeletion(db: Db, userId: string, providerId: string)
    ensures var op := DeleteConnection(userId, providerId);
      if (userId, providerId) !in db.connections then After(db, op) == db && Failure(db, op) == Some(NotFound)
      else
        && Failure(db, op) == None
        && After(db, op) == db.(connections := db.connections - {(userId, providerId)},
             bindings := map k | k in db.bindings && db.bindings[k].providerId != providerId :: db.bindings[k])
  {
  }

  lemma UserUpdate(db: Db, userId: string, disabled: Option<bool>, role: Option<string>)
    ensures var op := Op.UpdateUser(userId, disabled, role);
      if userId !in db.users then After(db, op) == db && Failure(db, op) == Some(NotFound)
      else
        var u := db.users[userId];
        var v := u.(disabled := disabled.GetOr(u.disabled), role := role.GetOr(u.role));
        Failure(db, op) == None && After(db, op) == db.(users := db.users[userId := v])
  {
  }

  lemma AdminBootstrap(db: Db, id: Option<string>, username: string, passwordHash: string)
    ensures var op := Op.BootstrapAdmin(id, username, passwordHash);
      if NameTaken(db, username) then
        var old' := IdNamed(db, username);
        && Failure(db, op) == None
        && After(db, op) == WithHash(
             db.(users := db.users[old' := db.users[old'].(disabled := false, role := "admin")]), username, passwordHash)
      else if id.None? then After(db, op) == db && Failure(db, op) == Some(NoEntropy)
      else
        && Failure(db, op) == None
        && After(db, op) == WithHash(
             db.(users := db.users[id.value := User(id.value, username, "admin", false)]), username, passwordHash)
  {
  }

  class Memory {
    var users: seq<User>
    var passwordHashes: map<string, string>
    var agents: seq<Agent>
    var integrations: seq<Connection>
    var agentIntegrations: seq<Binding>
    var pluginManifests: map<string, PluginRow>
    var userIdentities: seq<Identity>

    ghost function Value(): Db
      reads this
    {
      Db(
        Index(users, UserKey),
        passwordHashes,
        Index(agents, AgentKey),
        Index(userIdentities, IdentityKey),
        Index(integrations, ConnectionKey),
        Index(agentIntegrations, BindingKey),
        pluginManifests)
    }

    ghost predicate Distinct()
      reads this
    {
      && DistinctKeys(users, UserKey)
      && DistinctKeys(agents, AgentKey)
      && DistinctKeys(userIdentities, IdentityKey)
      && DistinctKeys(integrations, ConnectionKey)
      && DistinctKeys(agentIntegrations, BindingKey)
    }

    ghost predicate Valid()
      reads this
    {
      Distinct() && WellFormed(Value())
    }

    constructor ()
      ensures Valid() && Value() == EMPTY
    {
      users, passwordHashes, agents, integrations := [], map[], [], [];
      agentIntegrations, pluginManifests, userIdentities := [], map[], [];
    }

    // ----- users -----

    method CreateUser(username: string, passwordHash: string, role: string, newId: Option<string>)
      returns (r: Result<User, Error>)
      requires Valid() && FreshFor(Value(), newId)
      modifies this`users, this`passwordHashes
      ensures var op := Op.CreateUser(newId, username, passwordHash, role);
        && Value() == After(old(Value()), op) && Valid()
        && r == Answer(Failure(old(Value()), op), User(newId.GetOr(""), username, role, false))
      ensures r.Ok? ==>
        && r.value.username == username && r.value.role == role && !r.value.disabled
        && Value() == old(Value()).(
             users := old(Value()).users[r.value.id := r.value],
             hashes := if passwordHash == "" then old(Value()).hashes else old(Value()).hashes[username := passwordHash])
    {
      ghost var before := Value();
      UserCreation(before, newId, username, passwordHash, role);
      OpKeepsWellFormed(before, Op.CreateUser(newId, username, passwordHash, role));
      NameTakenIff(users, before, username);
      hide Index, WellFormed;
      for i := 0 to |users|
        invariant forall j :: 0 <= j < i ==> users[j].username != username
      {
        if users[i].username == username {
          return Err(Conflict);
        }
      }
      if newId.None? {
        return Err(NoEntropy);
      }
      var user := User(newId.value, username, role, false);
      AddUser(user, passwordHash);
      return Ok(user);
    }

    // The ends of CreateUser and BootstrapAdmin.
    method AddUser(user: User, passwordHash: string)
      requires Distinct() && user.id !in Value().users
      modifies this`users, this`passwordHashes
      ensures Distinct()
      ensures var db := old(Value());
        Value() == WithHash(db.(users := db.users[user.id := user]), user.username, passwordHash)
    {
      Appended(users, UserKey, user);
      users := users + [user];
      KeepHash(user.username, passwordHash);
    }

    // An empty hash is not kept.
    method KeepHash(username: string, passwordHash: string)
      modifies this`passwordHashes
      ensures passwordHashes ==
        if passwordHash == "" then old(passwordHashes) else old(passwordHashes)[username := passwordHash]
    {
      if passwordHash != "" {
        passwordHashes := passwordHashes[username := passwordHash];
      }
    }

    method GetUser(userId: string) returns (r: Result<User, Error>)
      requires Valid()
      ensures r == if userId in Value().users then Ok(Value().users[userId]) else Err(NotFound)
    {
      NoMatch(users, UserKey, userId);
      for i := 0 to |users|
        invariant forall j :: 0 <= j < i ==> users[j].id != userId
      {
        if users[i].id == userId {
          FirstMatch(users, UserKey, i);
          return Ok(users[i]);
        }
      }
      return Err(NotFound);
    }

    method GetUserByUsername(username: string) returns (r: Result<User, Error>)
      requires Valid()
      ensures r == if NameTaken(Value(), username) then Ok(Value().users[IdNamed(Value(), username)]) else Err(NotFound)
    {
      NameTakenIff(users, Value(), username);
      for i := 0 to |users|
        invariant forall j :: 0 <= j < i ==> users[j].username != username
      {
        if users[i].username == username {
          return Ok(users[i]);
        }
      }
      return Err(NotFound);
    }

    method UpdateUser(userId: string, disabled: Option<bool>, role: Option<string>) returns (r: Result<User, Error>)
      requires Valid()
      modifies this`users
      ensures var op := Op.UpdateUser(userId, disabled, role);
        && Value() == After(old(Value()), op) && Valid()
        && match Failure(old(Value()), op)
           case None => r == Ok(Value().users[userId])
           case Some(e) => r == Err(e)
    {
      hide Index, After, Failure;
      OpKeepsWellFormed(Value(), Op.UpdateUser(userId, disabled, role));
      NoMatch(users, UserKey, userId);
      UserUpdate(Value(), userId, disabled, role);
      hide Index, WellFormed, After, Failure;
      for i := 0 to |users|
        invariant users == old(users) && forall j :: 0 <= j < i ==> users[j].id != userId
      {
        if users[i].id == userId {
          IndexIsExact(users, UserKey);
          ghost var u := users[i];
          ghost var v := u.(disabled := disabled.GetOr(u.disabled), role := role.GetOr(u.role));
          Replaced(users, UserKey, i, v);
          if disabled.Some? {
            users := users[i := users[i].(disabled := disabled.value)];
          }
          if role.Some? {
            users := users[i := users[i].(role := role.value)];
          }
          assert users == old(users)[i := v];
          assert Value() == old(Value()).(users := old(Value()).users[userId := v]);
          return Ok(users[i]);
        }
      }
      return Err(NotFound);
    }

    method BootstrapAdmin(username: string, passwordHash: string, newId: Option<string>) returns (err: Option<Error>)
      requires Valid() && FreshFor(Value(), newId)
      modifies this`users, this`passwordHashes
      ensures var op := Op.BootstrapAdmin(newId, username, passwordHash);
        && Value() == After(old(Value()), op) && Valid() && err == Failure(old(Value()), op)
    {
      OpKeepsWellFormed(Value(), Op.BootstrapAdmin(newId, username, passwordHash));
      NameTakenIff(users, Value(), username);
      AdminBootstrap(Value(), newId, username, passwordHash);
      hide Index, WellFormed, After, Failure, NameTaken, IdNamed;
      for i := 0 to |users|
        invariant users == old(users) && passwordHashes == old(passwordHashes)
        invariant forall j :: 0 <= j < i ==> users[j].username != username
      {
        if users[i].username == username {
          Replaced(users, UserKey, i, users[i].(disabled := false, role := "admin"));
          users := users[i := users[i].(disabled := false, role := "admin")];
          KeepHash(username, passwordHash);
          return None;
        }
      }
      if newId.None? {
        return Some(NoEntropy);
      }
      AddUser(User(newId.value, username, "admin", false), passwordHash);
      return None;
    }

    // ----- agents -----

    method CreateAgent(owner: string, newId: Option<string>) returns (r: Result<Agent, Error>)
      requires Valid() && FreshFor(Value(), newId)
      modifies this`agents
      ensures var op := Op.CreateAgent(newId, owner);
        && Value() == After(old(Value()), op) && Valid()
        && r == Answer(Failure(old(Value()), op), Agent(newId.GetOr(""), owner, "idle", ""))
      ensures r.Ok? ==>
        && r.value.owner == owner && r.value.state == "idle" && r.value.lastError == ""
        && Value() == old(Value()).(agents := old(Value()).agents[r.value.id := r.value])
    {
      AgentCreation(Value(), newId, owner);
      OpKeepsWellFormed(Value(), Op.CreateAgent(newId, owner));
      hide Index, WellFormed;
      if newId.None? {
        return Err(NoEntropy);
      }
      var agent := Agent(newId.value, owner, "idle", "");
      Appended(agents, AgentKey, agent);
      agents := agents + [agent];
      return Ok(agent);
    }

    method DeleteAgent(agentId: string) returns (err: Option<Error>)
      requires Valid()
      modifies this`agents, this`agentIntegrations
      ensures var op := Op.DeleteAgent(agentId);
        && Value() == After(old(Value()), op) && Valid() && err == Failure(old(Value()), op)
    {
      hide Index, After, Failure;
      OpKeepsWellFormed(Value(), Op.DeleteAgent(agentId));
      NoMatch(agents, AgentKey, agentId);
      var keep := (b: Binding) => b.agentId != agentId;
      Filtered(agentIntegrations, BindingKey, keep);
      AgentDeletion(Value(), agentId);
      hide Index, WellFormed, After, Failure;
      for i := 0 to |agents|
        invariant agents == old(agents) && agentIntegrations == old(agentIntegrations)
        invariant forall j :: 0 <= j < i ==> agents[j].id != agentId
      {
        if agents[i].id == agentId {
          CutOut(agents, AgentKey, i);
          agents := agents[..i] + agents[i + 1..];
          agentIntegrations := RemainingBindings(keep);
          return None;
        }
      }
      return Some(NotFound);
    }

    // The loop at store.go:323-329 and at store.go:538-544.
    method RemainingBindings(keep: Binding -> bool) returns (remaining: seq<Binding>)
      ensures remaining == Kept(agentIntegrations, keep)
    {
      remaining := [];
      for j := 0 to |agentIntegrations|
        invariant remaining == Kept(agentIntegrations[..j], keep)
      {
        assert agentIntegrations[..j + 1][..j] == agentIntegrations[..j];
        if keep(agentIntegrations[j]) {
          remaining := remaining + [agentIntegrations[j]];
        }
      }
      assert agentIntegrations[..|agentIntegrations|] == agentIntegrations;
    }

    // ----- connections and bindings -----

    method UpsertIntegrationConnection(connection: Connection) returns (c: Connection)
      requires Valid()
      modifies this`integrations
      ensures Value() == After(old(Value()), UpsertConnection(connection)) && Valid()
      ensures c == UpsertedConnection(old(Value()), connection)
      ensures KeepsConnection(c, connection)
      ensures Value() == old(Value()).(connections := old(Value()).connections[(c.userId, c.providerId) := c])
    {
      hide Index, After;
      ConnectionUpsert(Value(), connection);
      OpKeepsWellFormed(Value(), UpsertConnection(connection));
      var k := (connection.userId, connection.providerId);
      NoMatch(integrations, ConnectionKey, k);
      hide Index, WellFormed;
      c := connection;
      if c.scope == "" {
        c := c.(scope := "user");
      }
      if c.scopeId == "" {
        c := c.(scopeId := c.userId);
      }
      for i := 0 to |integrations|
        invariant integrations == old(integrations) && c == Scoped(connection)
        invariant forall j :: 0 <= j < i ==> ConnectionKey(integrations[j]) != k
      {
        var old' := integrations[i];
        if old'.providerId == c.providerId && old'.userId == c.userId {
          IndexIsExact(integrations, ConnectionKey);
          var revision := PlusOne(old'.revision);
          if c.revision > revision {
            revision := c.revision;
          }
          c := old'.(account := c.account, status := c.status, secret := c.secret,
                     scope := c.scope, scopeId := c.scopeId, revision := revision);
          Replaced(integrations, ConnectionKey, i, c);
          integrations := integrations[i := c];
          return;
        }
      }
      if c.revision == 0 {
        c := c.(revision := 1);
      }
      Appended(integrations, ConnectionKey, c);
      integrations := integrations + [c];
    }

    method GetIntegrationConnection(userId: string, providerId: string) returns (r: Result<Connection, Error>)
      requires Valid()
      ensures var k := (userId, providerId);
        r == if k in Value().connections then Ok(Value().connections[k]) else Err(NotFound)
    {
      var k := (userId, providerId);
      NoMatch(integrations, ConnectionKey, k);
      for i := 0 to |integrations|
        invariant forall j :: 0 <= j < i ==> ConnectionKey(integrations[j]) != k
      {
        if integrations[i].userId == userId && integrations[i].providerId == providerId {
          FirstMatch(integrations, ConnectionKey, i);
          return Ok(integrations[i]);
        }
      }
      return Err(NotFound);
    }

    method DeleteIntegrationConnection(userId: string, providerId: string) returns (err: Option<Error>)
      requires Valid()
      modifies this`integrations, this`agentIntegrations
      ensures var op := DeleteConnection(userId, providerId);
        && Value() == After(old(Value()), op) && Valid() && err == Failure(old(Value()), op)
    {
      hide Index, After, Failure;
      var k := (userId, providerId);
      OpKeepsWellFormed(Value(), DeleteConnection(userId, providerId));
      NoMatch(integrations, ConnectionKey, k);
      var keep := (b: Binding) => b.providerId != providerId;
      Filtered(agentIntegrations, BindingKey, keep);
      ConnectionDeletion(Value(), userId, providerId);
      hide Index, WellFormed, After, Failure;
      for i := 0 to |integrations|
        invariant integrations == old(integrations) && agentIntegrations == old(agentIntegrations)
        invariant forall j :: 0 <= j < i ==> ConnectionKey(integrations[j]) != k
      {
        if integrations[i].userId == userId && integrations[i].providerId == providerId {
          CutOut(integrations, ConnectionKey, i);
          integrations := integrations[..i] + integrations[i + 1..];
          agentIntegrations := RemainingBindings(keep);
          return None;
        }
      }
      return Some(NotFound);
    }

    // The providers the user has a connection for, each once.
    method ListUserIntegrationProviderIDs(userId: string) returns (out: seq<string>)
      requires Valid()
      ensures forall p :: p in out <==>
        (userId, p) in Value().connections && Value().connections[(userId, p)].scope in {"", "user"}
      ensures forall i, j :: 0 <= i < j < |out| ==> out[i] != out[j]
    {
      IndexIsExact(integrations, ConnectionKey);
      hide Index, WellFormed;
      out := [];
      var seen: set<string> := {};
      for i := 0 to |integrations|
        invariant forall p :: p in out <==> p in seen
        invariant forall p :: p in seen <==>
          exists j :: 0 <= j < i && integrations[j].scope in {"", "user"} && ConnectionKey(integrations[j]) == (userId, p)
        invariant forall j, k :: 0 <= j < k < |out| ==> out[j] != out[k]
      {
        var c := integrations[i];
        if c.userId == userId && (c.scope == "" || c.scope == "user") && c.providerId !in seen {
          seen := seen + {c.providerId};
          out := out + [c.providerId];
        }
      }
      forall p | (userId, p) in Value().connections && Value().connections[(userId, p)].scope in {"", "user"}
        ensures p in seen
      {
        var j :| 0 <= j < |integrations| && integrations[j] == Value().connections[(userId, p)];
      }
    }

    method UpsertAgentIntegration(agentId: string, providerId: string, enabled: bool, revision: int, status: string)
      returns (b: Binding)
      requires Valid()
      modifies this`agentIntegrations
      ensures Value() == After(old(Value()), UpsertBinding(agentId, providerId, enabled, revision, status)) && Valid()
      ensures b == UpsertedBinding(old(Value()), agentId, providerId, enabled, revision, status)
      ensures b.agentId == agentId && b.providerId == providerId && b.enabled == enabled && b.status == status
      ensures Value() == old(Value()).(bindings := old(Value()).bindings[(agentId, providerId) := b])
    {
      BindingUpsert(Value(), agentId, providerId, enabled, revision, status);
      OpKeepsWellFormed(Value(), UpsertBinding(agentId, providerId, enabled, revision, status));
      var k := (agentId, providerId);
      NoMatch(agentIntegrations, BindingKey, k);
      hide Index, WellFormed;
      for i := 0 to |agentIntegrations|
        invariant agentIntegrations == old(agentIntegrations)
        invariant forall j :: 0 <= j < i ==> BindingKey(agentIntegrations[j]) != k
      {
        var ai := agentIntegrations[i];
        if ai.agentId == agentId && ai.providerId == providerId {
          IndexIsExact(agentIntegrations, BindingKey);
          var newRevision := PlusOne(ai.revision);
          if revision > newRevision {
            newRevision := revision;
          }
          b := ai.(enabled := enabled, revision := newRevision, status := status);
          Replaced(agentIntegrations, BindingKey, i, b);
          agentIntegrations := agentIntegrations[i := b];
          return;
        }
      }
      b := Binding(agentId, providerId, enabled, 1, status);
      Appended(agentIntegrations, BindingKey, b);
      agentIntegrations := agentIntegrations + [b];
    }

    method GetAgentIntegration(agentId: string, providerId: string) returns (r: Result<Binding, Error>)
      requires Valid()
      ensures var k := (agentId, providerId);
        r == if k in Value().bindings then Ok(Value().bindings[k]) else Err(NotFound)
    {
      var k := (agentId, providerId);
      NoMatch(agentIntegrations, BindingKey, k);
      for i := 0 to |agentIntegrations|
        invariant forall j :: 0 <= j < i ==> BindingKey(agentIntegrations[j]) != k
      {
        if agentIntegrations[i].agentId == agentId && agentIntegrations[i].providerId == providerId {
          FirstMatch(agentIntegrations, BindingKey, i);
          return Ok(agentIntegrations[i]);
        }
      }
      return Err(NotFound);
    }

    // ----- plugin manifests -----

    method UpsertPluginManifest(manifest: PluginRow) returns (m: PluginRow)
      requires Valid()
      modifies this`pluginManifests
      ensures Value() == After(old(Value()), UpsertPlugin(manifest)) && Valid()
      ensures m == UpsertedPlugin(old(Value()), manifest)
      ensures m.id == manifest.id && m.yaml == manifest.yaml && m.enabled == manifest.enabled
      ensures Value() == old(Value()).(plugins := old(Value()).plugins[m.id := m])
    {
      PluginUpsert(Value(), manifest);
      OpKeepsWellFormed(Value(), UpsertPlugin(manifest));
      if manifest.id in pluginManifests {
        var existing := pluginManifests[manifest.id];
        m := existing.(yaml := manifest.yaml, enabled := manifest.enabled, revision := PlusOne(existing.revision));
      } else {
        m := manifest.(revision := 1);
      }
      pluginManifests := pluginManifests[manifest.id := m];
    }

    method DeletePluginManifest(id: string) returns (err: Option<Error>)
      requires Valid()
      modifies this`pluginManifests
      ensures Value() == After(old(Value()), DeletePlugin(id)) && err == Failure(old(Value()), DeletePlugin(id)) && Valid()
    {
      OpKeepsWellFormed(Value(), DeletePlugin(id));
      if id !in pluginManifests {
        return Some(NotFound);
      }
      pluginManifests := pluginManifests - {id};
      return None;
    }

    // ----- identities -----

    method GetUserIDByIdentity(provider: string, subject: string) returns (userId: Option<string>)
      requires Valid()
      ensures var k := (provider, subject);
        userId == if k in Value().identities then Some(Value().identities[k].userId) else None
    {
      var k := (provider, subject);
      NoMatch(userIdentities, IdentityKey, k);
      for i := 0 to |userIdentities|
        invariant forall j :: 0 <= j < i ==> IdentityKey(userIdentities[j]) != k
      {
        if userIdentities[i].provider == provider && userIdentities[i].subject == subject {
          FirstMatch(userIdentities, IdentityKey, i);
          return Some(userIdentities[i].userId);
        }
      }
      return None;
    }

    method TouchIdentityLogin(provider: string, subject: string) returns (err: Option<Error>)
      requires Valid()
      modifies this`userIdentities
      ensures var op := Op.TouchIdentityLogin(provider, subject);
        && Value() == After(old(Value()), op) && Valid() && err == Failure(old(Value()), op)
    {
      var k := (provider, subject);
      OpKeepsWellFormed(Value(), Op.TouchIdentityLogin(provider, subject));
      NoMatch(userIdentities, IdentityKey, k);
      hide Index, WellFormed;
      for i := 0 to |userIdentities|
        invariant userIdentities == old(userIdentities)
        invariant forall j :: 0 <= j < i ==> IdentityKey(userIdentities[j]) != k
      {
        if userIdentities[i].provider == provider && userIdentities[i].subject == subject {
          IndexIsExact(userIdentities, IdentityKey);
          Replaced(userIdentities, IdentityKey, i, userIdentities[i].(loggedIn := true));
          userIdentities := userIdentities[i := userIdentities[i].(loggedIn := true)];
          return None;
        }
      }
      return Some(NotFound);
    }

    method CreateUserAndIdentity(args: CreateArgs, newId: Option<string>) returns (r: Result<User, Error>)
      requires Valid() && FreshFor(Value(), newId)
      modifies this`users, this`userIdentities
      ensures var op := Op.CreateUserAndIdentity(newId, args);
        && Value() == After(old(Value()), op) && Valid()
        && r == Answer(Failure(old(Value()), op), User(newId.GetOr(""), args.username, args.role, false))
      ensures r.Ok? ==>
        var filed := Identity(args.provider, args.subject, r.value.id, args.email, args.displayName, false);
        && r.value.username == args.username && r.value.role == args.role && !r.value.disabled
        && Value() == old(Value()).(
             users := old(Value()).users[r.value.id := r.value],
             identities := old(Value()).identities[(args.provider, args.subject) := filed])
    {
      AccountCreation(Value(), newId, args);
      var k := (args.provider, args.subject);
      OpKeepsWellFormed(Value(), Op.CreateUserAndIdentity(newId, args));
      NameTakenIff(users, Value(), args.username);
      NoMatch(userIdentities, IdentityKey, k);
      hide Index, WellFormed;
      for i := 0 to |users|
        invariant forall j :: 0 <= j < i ==> users[j].username != args.username
      {
        if users[i].username == args.username {
          return Err(Conflict);
        }
      }
      for i := 0 to |userIdentities|
        invariant forall j :: 0 <= j < i ==> IdentityKey(userIdentities[j]) != k
      {
        if userIdentities[i].provider == args.provider && userIdentities[i].subject == args.subject {
          return Err(Conflict);
        }
      }
      if newId.None? {
        return Err(NoEntropy);
      }
      var user := User(newId.value, args.username, args.role, false);
      var identity := Identity(args.provider, args.subject, newId.value, args.email, args.displayName, false);
      Appended(users, UserKey, user);
      Appended(userIdentities, IdentityKey, identity);
      users := users + [user];
      userIdentities := userIdentities + [identity];
      return Ok(user);
    }

    method LinkIdentityToUser(userId: string, provider: string, subject: string, email: string, displayName: string)
      returns (err: Option<Error>)
      requires Valid()
      modifies this`userIdentities
      ensures var op := Op.LinkIdentityToUser(userId, provider, subject, email, displayName);
        && Value() == After(old(Value()), op) && Valid() && err == Failure(old(Value()), op)
      ensures err.None? ==>
        var filed := Identity(provider, subject, userId, email, displayName, false);
        Value() == old(Value()).(identities := old(Value()).identities[(provider, subject) := filed])
    {
      var k := (provider, subject);
      IdentityLink(Value(), userId, provider, subject, email, displayName);
      OpKeepsWellFormed(Value(), Op.LinkIdentityToUser(userId, provider, subject, email, displayName));
      NoMatch(users, UserKey, userId);
      NoMatch(userIdentities, IdentityKey, k);
      hide Index, WellFormed;
      var found := false;
      for i := 0 to |users|
        invariant found <==> exists j :: 0 <= j < i && users[j].id == userId
      {
        if users[i].id == userId {
          found := true;
          break;
        }
      }
      if !found {
        return Some(NotFound);
      }
      for i := 0 to |userIdentities|
        invariant forall j :: 0 <= j < i ==> IdentityKey(userIdentities[j]) != k
      {
        if userIdentities[i].provider == provider && userIdentities[i].subject == subject {
          return Some(Conflict);
        }
      }
      var identity := Identity(provider, subject, userId, email, displayName, false);
      Appended(userIdentities, IdentityKey, identity);
      userIdentities := userIdentities + [identity];
      return None;
    }

    method UnlinkIdentity(userId: string, provider: string, subject: string) returns (err: Option<Error>)
      requires Valid()
      modifies this`userIdentities
      ensures var op := Op.UnlinkIdentity(userId, provider, subject);
        && Value() == After(old(Value()), op) && Valid() && err == Failure(old(Value()), op)
    {
      OpKeepsWellFormed(Value(), Op.UnlinkIdentity(userId, provider, subject));
      IndexIsExact(userIdentities, IdentityKey);
      hide Index, WellFormed;
      for i := 0 to |userIdentities|
        invariant userIdentities == old(userIdentities)
        invariant forall j :: 0 <= j < i ==>
          !(userIdentities[j].userId == userId && IdentityKey(userIdentities[j]) == (provider, subject))
      {
        var x := userIdentities[i];
        if x.userId == userId && x.provider == provider && x.subject == subject {
          CutOut(userIdentities, IdentityKey, i);
          userIdentities := userIdentities[..i] + userIdentities[i + 1..];
          return None;
        }
      }
      return Some(NotFound);
    }
  }
}

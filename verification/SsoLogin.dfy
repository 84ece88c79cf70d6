/**
 linkOrCreateUser (internal/api/oidc.go:256-292) as it is called, on the store of slices.
 */
module SsoLogin {
  import opened Wrappers
  import opened Store
  import opened MemoryStore
  import opened Sso

  datatype LoginError = AccountDisabled | NameRegistered | StoreError(error: Error)

  ghost function Next(s: State, id: Option<string>): (t: State)
    requires |s.logins| == 1
    ensures |t.logins| == 1
  {
    if Over(s.logins[0].pc) then s else DoAdvance(s, 0, id)
  }

  // The steps of one login that nothing interleaves with.
  ghost function Undisturbed(db: Db, x: Login, id: Option<string>): (s: State)
    ensures |s.logins| == 1
  {
    Next(Next(Next(State(db, [x], []), id), id), id)
  }

  lemma KnownIdentity(db: Db, x: Login, id: Option<string>)
    requires WellFormed(db) && x.pc.LookingUp? && IdentityOf(x) in db.identities
    ensures var u := db.users[db.identities[IdentityOf(x)].userId];
      var s := Undisturbed(db, x, id);
      && s.db == After(db, TouchIdentityLogin(x.provider, x.subject)) && s.db.users == db.users
      && s.logins[0].pc == if u.disabled then Refused else LoggedIn(u)
  {
  }

  lemma NewIdentity(db: Db, x: Login, id: Option<string>)
    requires WellFormed(db) && x.pc.LookingUp? && IdentityOf(x) !in db.identities
    ensures var op := CreateUserAndIdentity(id, NewUser(x));
      var s := Undisturbed(db, x, id);
      if NameTaken(db, x.email) then s.db == db && s.logins[0].pc == Refused
      else
        && s.db == After(db, op)
        && s.logins[0].pc == if Failure(db, op).Some? then Refused else LoggedIn(User(id.GetOr(""), x.email, "user", false))
  {
  }

  // The method is the step system's login, when nothing interleaves with it.
  method LinkOrCreateUser(m: Memory, provider: string, subject: string, email: string, displayName: string, newId: Option<string>)
    returns (r: Result<User, LoginError>)
    requires m.Valid() && FreshFor(m.Value(), newId)
    modifies m
    ensures var s := Undisturbed(old(m.Value()), Login(provider, subject, email, displayName, LookingUp), newId);
      && m.Valid() && m.Value() == s.db
      && match r
         case Ok(u) => s.logins[0].pc == LoggedIn(u)
         case Err(_) => s.logins[0].pc == Refused
    ensures var db, k := old(m.Value()), (provider, subject);
      && (r == Err(AccountDisabled) <==> k in db.identities && db.users[db.identities[k].userId].disabled)
      && (r == Err(NameRegistered) <==> k !in db.identities && NameTaken(db, email))
      && (r.Err? && r.error.StoreError? ==> k !in db.identities && !NameTaken(db, email) && r.error.error == NoEntropy)
  {
    ghost var x := Login(provider, subject, email, displayName, LookingUp);
    if IdentityOf(x) in m.Value().identities {
      KnownIdentity(m.Value(), x, newId);
    } else {
      NewIdentity(m.Value(), x, newId);
    }
    hide Undisturbed, After, Failure, NameTaken, IdNamed;
    var userId := m.GetUserIDByIdentity(provider, subject);
    if userId.Some? {
      var failed := m.TouchIdentityLogin(provider, subject);
      var user := m.GetUser(userId.value);
      if user.Err? {
        return Err(StoreError(NotFound));
      }
      if user.value.disabled {
        return Err(AccountDisabled);
      }
      return Ok(user.value);
    }
    var existing := m.GetUserByUsername(email);
    if existing.Ok? && existing.value.id != "" {
      return Err(NameRegistered);
    }
    var created := m.CreateUserAndIdentity(CreateArgs(email, "user", provider, subject, email, displayName), newId);
    if created.Err? {
      return Err(StoreError(created.error));
    }
    return Ok(created.value);
  }
}

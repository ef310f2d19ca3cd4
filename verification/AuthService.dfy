/** The authentication service: a cache in front of the account store, and the table of live sessions.

    Calls are atomic here and the clock never runs backwards; AccountRuns takes the account operations apart. */
module AuthService {
  import opened Wrappers
  import opened Text
  import opened Numbers
  import opened Store
  import opened Accounts
  import opened Sessions

  /** What a locked operation leaves behind: its plan in store and cache, or nothing when it was refused or not saved. */
  ghost predicate Carried(plan: Result<Plan, AppError>, done: bool, before: Users, after: Users, stored: Users,
                          storedAfter: Users)
  {
    if done then plan.Ok? && after == Apply(before, plan.value) && storedAfter == Apply(stored, plan.value)
    else after == before && storedAfter == stored
  }

  lemma CarryKeeps(before: Users, stored: Users, plan: Plan)
    requires Agree(before, stored)
    ensures Agree(Apply(before, plan), Apply(stored, plan))
  {
    hide Settled;
  }

  lemma CountOneMore(users: Users, done: set<Id>, id: Id)
    requires id in users && id !in done
    ensures |Admins(users) * (done + {id})| == |Admins(users) * done| + if Admin in users[id].roles then 1 else 0
  {
    assert Admins(users) * (done + {id}) == Admins(users) * done + if Admin in users[id].roles then {id} else {};
  }

  lemma CountedAll(users: Users, done: set<Id>)
    requires users.Keys - done == {}
    ensures |Admins(users) * done| == |Admins(users)|
  {
    assert forall id :: id in Admins(users) && id !in done ==> id in users.Keys - done;
    assert Admins(users) * done == Admins(users);
  }

  class AuthService {
    const crypto: Crypto
    const store: JsonStore<StoredUser>
    const tokenTtl: nat
    var users: Users
    var tokens: map<Token, Session>
    /** Everything that created or ended a session, and the latest time seen. */
    ghost var history: seq<Event>
    ghost var clock: Time

    ghost predicate Valid()
      reads this, store
    {
      Sound(users) && Agree(users, store.records) && Holds(tokens, history, clock)
    }

    /** Startup: load the saved accounts, or seed one administrator on first boot. */
    constructor LoadOrSeed(crypto: Crypto, store: JsonStore<StoredUser>, tokenTtl: nat, id: Id, hash: string,
                           mustChange: bool, now: Time)
      requires store.records == map[] || Sound(store.records)
      modifies store
      ensures this.store == store && this.crypto == crypto && this.tokenTtl == tokenTtl
      ensures users != map[] ==> Valid()
      ensures users == map[] ==> store.records == map[] && old(store.records) == map[]
      ensures old(store.records) != map[] ==> store.records == old(store.records) && users == store.records
      ensures old(store.records) == map[] && users != map[] ==>
                users == map[id := StoredUser(id, "admin", [Admin], now, None, hash, mustChange, NO_TWO_FACTOR)]
      ensures tokens == map[] && history == []
    {
      this.crypto, this.store, this.tokenTtl := crypto, store, tokenTtl;
      users, tokens, history, clock := map[], map[], [], now;
      new;
      if store.records != map[] {
        users := store.records;
        return;
      }
      var admin := StoredUser(id, "admin", [Admin], now, None, hash, mustChange, NO_TWO_FACTOR);
      var ok := store.Put(id, admin);
      if ok {
        users := users[id := admin];
        assert id in Admins(users);
      }
    }

    // ----- sessions -----

    /** A token authenticates exactly when its session stands, has not expired, and its user still exists. */
    method Authenticate(now: Time, token: Token) returns (r: Result<StoredUser, AppError>)
      requires Valid() && clock <= now
      modifies this
      ensures Valid() && clock == now && history == old(history) && users == old(users)
      ensures var s := Standing(history, token);
              if s.Some? && now < s.value.expiresAt && s.value.userId in users then r == Ok(users[s.value.userId])
              else r == Err(Unauthorized)
    {
      clock := now;
      if token !in tokens {
        return Err(Unauthorized);
      }
      var session := tokens[token];
      if session.expiresAt <= now {
        tokens := tokens - {token};
        return Err(Unauthorized);
      }
      if session.userId !in users {
        return Err(Unauthorized);
      }
      return Ok(users[session.userId]);
    }

    method Logout(token: Token)
      requires Valid()
      modifies this
      ensures Valid() && history == old(history) + [LoggedOut(token)] && users == old(users) && clock == old(clock)
      ensures tokens == old(tokens) - {token}
    {
      EndKeeps(tokens, history, clock, LoggedOut(token));
      assert Without(tokens, LoggedOut(token)) == tokens - {token};
      tokens := tokens - {token};
      history := history + [LoggedOut(token)];
    }

    /** Drop the sessions an event ends. */
    method Revoke(e: Event)
      requires Holds(tokens, history, clock) && !e.Minted?
      modifies this`tokens, this`history
      ensures Holds(tokens, history, clock) && history == old(history) + [e]
      ensures tokens == Without(old(tokens), e)
    {
      EndKeeps(tokens, history, clock, e);
      tokens := map t | t in tokens && !Ends(e, t, tokens[t].userId) :: tokens[t];
      history := history + [e];
    }

    // ----- accounts -----

    /** Write the store, then the cache. */
    method SaveUser(id: Id, user: StoredUser) returns (ok: bool)
      requires Agree(users, store.records)
      modifies this`users, store
      ensures Agree(users, store.records)
      ensures Carried(Ok(Save(id, user)), ok, old(users), users, old(store.records), store.records)
    {
      CarryKeeps(users, store.records, Save(id, user));
      ok := store.Put(id, user);
      if ok {
        users := users[id := user];
      }
    }

    method CreateUser(id: Id, username: string, password: string, roles: seq<Role>, hash: string, now: Time)
      returns (r: Result<StoredUser, AppError>)
      requires Valid() && id !in users
      modifies this`users, store
      ensures Valid()
      ensures var plan := PlanCreate(old(users), id, username, password, roles, hash, now);
              && (plan.Err? ==> r == Err(plan.error))
              && (r.Ok? ==> id in users && r.value == users[id])
              && Carried(plan, r.Ok?, old(users), users, old(store.records), store.records)
    {
      hide Holds, Agree, ValidUsername, Trim;
      var name := Trim(username);
      if !ValidUsername(name) {
        return Err(Validation);
      }
      if ByteLength(password) < MIN_PASSWORD_LEN {
        return Err(Validation);
      }
      if exists other :: other in users && SameName(users[other].username, name) {
        return Err(Conflict);
      }
      var user := StoredUser(id, name, roles, now, None, hash, false, NO_TWO_FACTOR);
      SaveKeepsSound(users, id, user);
      var ok := SaveUser(id, user);
      return if ok then Ok(user) else Err(Internal);
    }

    /** Number of accounts holding the administrator role. */
    method AdminCount() returns (n: nat)
      ensures n == |Admins(users)|
    {
      hide Admins;
      n := 0;
      var todo := users.Keys;
      ghost var done: set<Id> := {};
      while todo != {}
        invariant todo == users.Keys - done && done <= users.Keys
        invariant n == |Admins(users) * done|
        decreases todo
      {
        var id :| id in todo;
        todo := todo - {id};
        CountOneMore(users, done, id);
        if Admin in users[id].roles {
          n := n + 1;
        }
        done := done + {id};
      }
      CountedAll(users, done);
    }

    /** Change roles or reset the password; a reset ends every session of the account. */
    method UpdateUser(id: Id, roles: Option<seq<Role>>, password: Option<string>, hash: string)
      returns (r: Result<StoredUser, AppError>)
      requires Valid()
      modifies this, store
      ensures Valid() && clock == old(clock)
      ensures var plan := PlanUpdate(old(users), id, roles, password, hash);
              && (plan.Err? ==> r == Err(plan.error))
              && Carried(plan, r.Ok?, old(users), users, old(store.records), store.records)
      ensures history == old(history) + if r.Ok? && password.Some? then [PasswordReset(id)] else []
      ensures if r.Ok? && password.Some? then RevokedFor(old(tokens), tokens, id, None) else tokens == old(tokens)
    {
      hide Holds, Agree, Ends, Without, RevokedFor;
      if id !in users {
        return Err(NotFound);
      }
      var user := users[id];
      if roles.Some? {
        var removesAdmin := Admin in user.roles && Admin !in roles.value;
        var admins := AdminCount();
        if removesAdmin && admins <= 1 {
          return Err(Conflict);
        }
        user := user.(roles := roles.value);
      }
      if password.Some? {
        if ByteLength(password.value) < MIN_PASSWORD_LEN {
          return Err(Validation);
        }
        user := user.(passwordHash := hash, mustChangePassword := false);
      }
      SaveKeepsSound(users, id, user);
      var ok := SaveUser(id, user);
      if !ok {
        return Err(Internal);
      }
      if password.Some? {
        WithoutExactly(tokens, id, "");
        Revoke(PasswordReset(id));
      }
      return Ok(user);
    }

    /** Delete an account and end its sessions; the last administrator stays. */
    method DeleteUser(id: Id) returns (r: Result<(), AppError>)
      requires Valid()
      modifies this, store
      ensures Valid() && clock == old(clock)
      ensures var plan := PlanDelete(old(users), id);
              && (plan.Err? ==> r == Err(plan.error))
              && Carried(plan, r.Ok?, old(users), users, old(store.records), store.records)
      ensures history == old(history) + if r.Ok? then [Deleted(id)] else []
      ensures if r.Ok? then RevokedFor(old(tokens), tokens, id, None) else tokens == old(tokens)
    {
      hide Holds, Agree, Ends, Without, RevokedFor;
      if id !in users {
        return Err(NotFound);
      }
      var admins := AdminCount();
      if Admin in users[id].roles && admins <= 1 {
        return Err(Conflict);
      }
      RemoveKeepsSound(users, id);
      CarryKeeps(users, store.records, Remove(id));
      var ok := store.Delete(id);
      if !ok {
        return Err(Internal);
      }
      users := users - {id};
      WithoutExactly(tokens, id, "");
      Revoke(Deleted(id));
      return Ok(());
    }

    /** The caller's own password change ends every other session of the account and keeps the caller's. */
    method ChangePassword(id: Id, token: Token, current: string, password: string, hash: string)
      returns (r: Result<(), AppError>)
      requires Valid()
      modifies this, store
      ensures Valid() && clock == old(clock)
      ensures var plan := PlanChangePassword(crypto, old(users), id, current, password, hash);
              && (plan.Err? ==> r == Err(plan.error))
              && Carried(plan, r.Ok?, old(users), users, old(store.records), store.records)
      ensures history == old(history) + if r.Ok? then [PasswordChanged(id, token)] else []
      ensures if r.Ok? then RevokedFor(old(tokens), tokens, id, Some(token)) else tokens == old(tokens)
    {
      hide Holds, Agree, Ends, Without, RevokedFor;
      if ByteLength(password) < MIN_PASSWORD_LEN {
        return Err(Validation);
      }
      if id !in users {
        return Err(Unauthorized);
      }
      if !crypto.verifyPassword(current, users[id].passwordHash) {
        return Err(Unauthorized);
      }
      var user := users[id].(passwordHash := hash, mustChangePassword := false);
      SaveKeepsSound(users, id, user);
      var ok := SaveUser(id, user);
      if !ok {
        return Err(Internal);
      }
      WithoutExactly(tokens, id, token);
      Revoke(PasswordChanged(id, token));
      return Ok(());
    }

    // ----- second factor -----

    method TwoFactorSetup(id: Id, secret: string) returns (r: Result<(), AppError>)
      requires Valid()
      modifies this`users, store
      ensures Valid()
      ensures var plan := PlanSetup(old(users), id, secret);
              && (plan.Err? ==> r == Err(plan.error))
              && Carried(plan, r.Ok?, old(users), users, old(store.records), store.records)
    {
      hide Holds, Agree;
      if id !in users {
        return Err(Unauthorized);
      }
      var user := users[id];
      if user.twoFactor.enabled {
        return Err(Conflict);
      }
      user := user.(twoFactor := TwoFactor(Some(secret), false, []));
      SaveKeepsSound(users, id, user);
      var ok := SaveUser(id, user);
      return if ok then Ok(()) else Err(Internal);
    }

    method TwoFactorConfirm(id: Id, code: string, now: Time, hashes: seq<string>) returns (r: Result<(), AppError>)
      requires Valid()
      modifies this`users, store
      ensures Valid()
      ensures var plan := PlanConfirm(crypto, old(users), id, code, now, hashes);
              && (plan.Err? ==> r == Err(plan.error))
              && Carried(plan, r.Ok?, old(users), users, old(store.records), store.records)
    {
      hide Holds, Agree;
      if id !in users {
        return Err(Unauthorized);
      }
      var user := users[id];
      if user.twoFactor.enabled || user.twoFactor.secret.None? {
        return Err(Conflict);
      }
      if !crypto.verifyTotp(user.twoFactor.secret.value, code, now) {
        return Err(Validation);
      }
      user := user.(twoFactor := user.twoFactor.(enabled := true, recoveryHashes := hashes));
      SaveKeepsSound(users, id, user);
      var ok := SaveUser(id, user);
      return if ok then Ok(()) else Err(Internal);
    }

    /** A current TOTP code changes nothing; otherwise one stored recovery code is spent. */
    method VerifySecondFactor(id: Id, secret: Option<string>, code: string, now: Time) returns (r: Result<(), AppError>)
      requires Valid()
      modifies this`users, store
      ensures Valid()
      ensures r.Err? ==> r.error == Unauthorized || r.error == Internal
      ensures if secret.Some? && crypto.verifyTotp(secret.value, code, now)
              then r == Ok(()) && users == old(users) && store.records == old(store.records)
              else var plan := PlanSpend(old(users), id, crypto.recoveryHash(code));
                   && (plan.Err? ==> r == Err(plan.error)) && (plan.Ok? && r.Err? ==> r.error == Internal)
                   && Carried(plan, r.Ok?, old(users), users, old(store.records), store.records)
    {
      hide Holds, Agree;
      if secret.Some? && crypto.verifyTotp(secret.value, code, now) {
        return Ok(());
      }
      var target := crypto.recoveryHash(code);
      if id !in users {
        return Err(Unauthorized);
      }
      var user := users[id];
      var hashes := user.twoFactor.recoveryHashes;
      var position := Position(hashes, target);
      if position.None? {
        return Err(Unauthorized);
      }
      var i := position.value;
      user := user.(twoFactor := user.twoFactor.(recoveryHashes := hashes[..i] + hashes[i + 1..]));
      SaveKeepsSound(users, id, user);
      var ok := SaveUser(id, user);
      return if ok then Ok(()) else Err(Internal);
    }

    method TwoFactorDisable(id: Id, code: string, now: Time) returns (r: Result<(), AppError>)
      requires Valid()
      modifies this`users, store
      ensures Valid()
      ensures id !in old(users) ==> r == Err(Unauthorized)
      ensures id in old(users) && !old(users)[id].twoFactor.enabled ==> r == Err(Conflict)
      ensures r.Ok? ==>
                && id in old(users) && SecondFactorGiven(crypto, old(users), id, code, now)
                && var cleared := Save(id, old(users)[id].(twoFactor := NO_TWO_FACTOR));
                   users == Apply(old(users), cleared) && store.records == Apply(old(store.records), cleared)
      ensures r.Err? ==>
                var spend := PlanSpend(old(users), id, crypto.recoveryHash(code));
                || (users == old(users) && store.records == old(store.records))
                || (r == Err(Internal) && Carried(spend, true, old(users), users, old(store.records), store.records))
      ensures r.Err? && id in old(users) && old(users)[id].twoFactor.enabled ==>
                r.error == if SecondFactorGiven(crypto, old(users), id, code, now) then Internal else Unauthorized
    {
      hide Holds, Agree, Sound, PlanSpend, Apply, SecondFactorGiven;
      if id !in users {
        return Err(Unauthorized);
      }
      if !users[id].twoFactor.enabled {
        return Err(Conflict);
      }
      ghost var cleared := users[id].(twoFactor := NO_TWO_FACTOR);
      GivenWhen(crypto, users, id, code, now);
      if PlanSpend(users, id, crypto.recoveryHash(code)).Ok? {
        SpendOverwritten(users, store.records, id, crypto.recoveryHash(code));
      }
      var verified := VerifySecondFactor(id, users[id].twoFactor.secret, code, now);
      if verified.Err? {
        return Err(verified.error);
      }
      var user := users[id].(twoFactor := NO_TWO_FACTOR);
      SoundId(users, id);
      SaveKeepsSound(users, id, user);
      SavedBy(users, id, user);
      var ok := SaveUser(id, user);
      return if ok then Ok(()) else Err(Internal);
    }

    // ----- login -----

    /** A session is minted only for the account of that name, with its password and, when enrolled, a second factor; and it
        is minted whenever no recovery code has to be spent. */
    method Login(username: string, password: string, code: Option<string>, token: Token, now: Time)
      returns (r: Result<Id, AppError>)
      requires Valid()
      modifies this, store
      ensures Valid() && clock == old(clock)
      ensures r.Ok? ==>
                && r.value in old(users) && Knows(crypto, old(users), r.value, username, password)
                && (old(users)[r.value].twoFactor.enabled ==>
                      code.Some? && SecondFactorGiven(crypto, old(users), r.value, Trim(code.value), now))
                && history == old(history) + [Minted(token, r.value, now + Min(tokenTtl, I64_MAX))]
      ensures r.Ok? ==>
                var id := r.value;
                if CodeUnneeded(crypto, old(users), id, code, now)
                then users == Stamped(old(users), id, now) && store.records == old(store.records)
                else var spend := PlanSpend(old(users), id, crypto.recoveryHash(Trim(code.value)));
                     && spend.Ok? && users == Stamped(Apply(old(users), spend.value), id, now)
                     && store.records == Apply(old(store.records), spend.value)
      ensures r.Err? ==> users == old(users) && store.records == old(store.records)
      ensures forall id :: (id in old(users) && Knows(crypto, old(users), id, username, password)
                            && CodeUnneeded(crypto, old(users), id, code, now)) ==> r == Ok(id)
      ensures r.Err? ==> history == old(history)
      ensures tokens == if r.Ok? then old(tokens)[token := Session(r.value, now + Min(tokenTtl, I64_MAX))] else old(tokens)
      ensures r == Err(TwoFactorRequired) <==>
                exists id :: id in old(users) && Knows(crypto, old(users), id, username, password)
                             && old(users)[id].twoFactor.enabled
                             && (code.None? || Trim(code.value) == "")
    {
      hide Sound, Holds, Agree, Knows, SecondFactorGiven, Trim;
      var found := FindAccount(username, password);
      if found.Err? {
        return Err(found.error);
      }
      var id := found.value;
      var verified := CheckSecondFactor(id, code, now);
      if verified.Err? {
        return Err(verified.error);
      }
      StampLogin(id, now);
      MintToken(id, token, now + Min(tokenTtl, I64_MAX));
      return Ok(id);
    }

    /** The account of that name, when the password is its own. */
    method FindAccount(username: string, password: string) returns (r: Result<Id, AppError>)
      requires Sound(users)
      ensures r.Ok? ==> r.value in users && forall id :: id in users ==>
                (Knows(crypto, users, id, username, password) <==> id == r.value)
      ensures r.Err? ==> r.error == Unauthorized && forall id :: id in users ==> !Knows(crypto, users, id, username, password)
    {
      hide SameName, Trim;
      var name := Trim(username);
      if !exists id :: id in users && SameName(users[id].username, name) {
        return Err(Unauthorized);
      }
      var id :| id in users && SameName(users[id].username, name);
      OnlyOneOfThatName(users, id, name);
      if !crypto.verifyPassword(password, users[id].passwordHash) {
        return Err(Unauthorized);
      }
      return Ok(id);
    }

    /** Nothing to check without an enrolment; a missing code is asked for, a given one is verified. */
    method CheckSecondFactor(id: Id, code: Option<string>, now: Time) returns (r: Result<(), AppError>)
      requires Valid() && id in users
      modifies this`users, store
      ensures Valid() && users.Keys == old(users).Keys
      ensures r == Err(TwoFactorRequired) <==> old(users)[id].twoFactor.enabled && (code.None? || Trim(code.value) == "")
      ensures r.Ok? && old(users)[id].twoFactor.enabled ==>
                code.Some? && SecondFactorGiven(crypto, old(users), id, Trim(code.value), now)
      ensures CodeUnneeded(crypto, old(users), id, code, now) ==> r == Ok(())
      ensures r.Err? || CodeUnneeded(crypto, old(users), id, code, now) ==>
                users == old(users) && store.records == old(store.records)
      ensures r.Ok? && !CodeUnneeded(crypto, old(users), id, code, now) ==>
                Carried(PlanSpend(old(users), id, crypto.recoveryHash(Trim(code.value))), true, old(users), users,
                        old(store.records), store.records)
    {
      hide Sound, Holds, Agree, Trim;
      if users[id].twoFactor.enabled {
        if Blank(code) {
          return Err(TwoFactorRequired);
        }
        r := VerifySecondFactor(id, users[id].twoFactor.secret, Trim(code.value), now);
        return;
      }
      return Ok(());
    }

    method MintToken(id: Id, token: Token, expiresAt: Time)
      requires Holds(tokens, history, clock)
      modifies this`tokens, this`history
      ensures Holds(tokens, history, clock) && history == old(history) + [Minted(token, id, expiresAt)]
      ensures tokens == old(tokens)[token := Session(id, expiresAt)]
    {
      MintKeeps(tokens, history, clock, token, id, expiresAt);
      tokens := tokens[token := Session(id, expiresAt)];
      history := history + [Minted(token, id, expiresAt)];
    }

    /** The time of the login is kept in the cache only. */
    method StampLogin(id: Id, now: Time)
      requires Sound(users) && Agree(users, store.records) && id in users
      modifies this`users
      ensures Sound(users) && Agree(users, store.records) && users == Stamped(old(users), id, now)
    {
      hide SameName;
      var user := users[id].(lastLogin := Some(now));
      SaveKeepsSound(users, id, user);
      assert Settled(user) == Settled(users[id]);
      users := users[id := user];
    }
  }

  predicate Blank(code: Option<string>) {
    code.None? || Trim(code.value) == ""
  }

  /** The accounts after a login has recorded its time. */
  ghost function Stamped(users: Users, id: Id, now: Time): Users
    requires id in users
  {
    users[id := users[id].(lastLogin := Some(now))]
  }

  /** No recovery code has to be spent: the account is not enrolled, or the code given is a valid TOTP code. */
  ghost predicate CodeUnneeded(crypto: Crypto, users: Users, id: Id, code: Option<string>, now: Time)
    requires id in users
  {
    var factor := users[id].twoFactor;
    factor.enabled ==> !Blank(code) && factor.secret.Some? && crypto.verifyTotp(factor.secret.value, Trim(code.value), now)
  }

  lemma SoundId(users: Users, id: Id)
    requires Sound(users) && id in users
    ensures users[id].id == id
  {
  }

  lemma SavedBy(users: Users, id: Id, user: StoredUser)
    ensures Apply(users, Save(id, user)) == users[id := user]
  {
  }

  /** Clearing the factor after spending a code leaves what clearing alone would have left. */
  lemma SpendOverwritten(users: Users, stored: Users, id: Id, target: string)
    requires id in users && PlanSpend(users, id, target).Ok?
    ensures var plan := PlanSpend(users, id, target).value;
            var cleared := Save(id, users[id].(twoFactor := NO_TWO_FACTOR));
            && id in Apply(users, plan) && Apply(users, plan)[id].(twoFactor := NO_TWO_FACTOR) == cleared.user
            && Apply(Apply(users, plan), cleared) == Apply(users, cleared)
            && Apply(Apply(stored, plan), cleared) == Apply(stored, cleared)
  {
    SpendWhenStored(users, id, target);
    hide PlanSpend;
  }

  lemma GivenWhen(crypto: Crypto, users: Users, id: Id, code: string, now: Time)
    requires id in users
    ensures var secret := users[id].twoFactor.secret;
            SecondFactorGiven(crypto, users, id, code, now) <==>
            (secret.Some? && crypto.verifyTotp(secret.value, code, now)) || PlanSpend(users, id, crypto.recoveryHash(code)).Ok?
    ensures var spend := PlanSpend(users, id, crypto.recoveryHash(code)); spend.Err? ==> spend.error == Unauthorized
  {
    SpendWhenStored(users, id, crypto.recoveryHash(code));
  }

  lemma SpendWhenStored(users: Users, id: Id, target: string)
    requires id in users
    ensures PlanSpend(users, id, target).Ok? <==> target in users[id].twoFactor.recoveryHashes
    ensures PlanSpend(users, id, target).Err? ==> PlanSpend(users, id, target).error == Unauthorized
    ensures PlanSpend(users, id, target).Ok? ==>
              var plan := PlanSpend(users, id, target).value;
              plan.Save? && plan.id == id && plan.user == users[id].(twoFactor := plan.user.twoFactor)
  {
  }

  ghost predicate Knows(crypto: Crypto, users: Users, id: Id, username: string, password: string)
    requires id in users
  {
    SameName(users[id].username, Trim(username)) && crypto.verifyPassword(password, users[id].passwordHash)
  }

  /** A valid TOTP code, or the code of an unused recovery entry. */
  ghost predicate SecondFactorGiven(crypto: Crypto, users: Users, id: Id, code: string, now: Time)
    requires id in users
  {
    || (users[id].twoFactor.secret.Some? && crypto.verifyTotp(users[id].twoFactor.secret.value, code, now))
    || crypto.recoveryHash(code) in users[id].twoFactor.recoveryHashes
  }

  lemma OnlyOneOfThatName(users: Users, id: Id, name: string)
    requires Sound(users) && id in users && SameName(users[id].username, name)
    ensures forall other :: other in users && SameName(users[other].username, name) ==> other == id
  {
  }
}

/** User accounts: what each account operation decides to write, from the accounts it sees under the mutation lock. */
module Accounts {
  import opened Wrappers
  import opened Text
  import opened Collections

  datatype Role = Admin | Operator | Viewer

  /** Two-phase enrolment: a secret while pending, then enabled with the hashes of the unused recovery codes. */
  datatype TwoFactor = TwoFactor(secret: Option<string>, enabled: bool, recoveryHashes: seq<string>)

  const NO_TWO_FACTOR := TwoFactor(None, false, [])

  datatype StoredUser = StoredUser(id: Id, username: string, roles: seq<Role>, createdAt: Time, lastLogin: Option<Time>,
                                   passwordHash: string, mustChangePassword: bool, twoFactor: TwoFactor)

  type Users = map<Id, StoredUser>

  /** Password verification, TOTP verification and recovery-code hashing. */
  datatype Crypto = Crypto(verifyPassword: (string, string) -> bool, verifyTotp: (string, string, Time) -> bool,
                           recoveryHash: string -> string)

  const MIN_PASSWORD_LEN := 8

  /** What a locked operation is about to write. */
  datatype Plan = Save(id: Id, user: StoredUser) | Remove(id: Id)

  function Apply(users: Users, plan: Plan): Users {
    match plan
    case Save(id, user) => users[id := user]
    case Remove(id) => users - {id}
  }

  predicate SameName(a: string, b: string) {
    ToAsciiLowercase(a) == ToAsciiLowercase(b)
  }

  /** Two characters that are equal, or one the ASCII capital of the other. */
  predicate SameLetter(x: char, y: char) {
    || x == y
    || ('A' <= x <= 'Z' && y as int == x as int + 32)
    || ('A' <= y <= 'Z' && x as int == y as int + 32)
  }

  lemma SameNameMeans(a: string, b: string)
    ensures SameName(a, b) <==> |a| == |b| && forall i :: 0 <= i < |a| ==> SameLetter(a[i], b[i])
  {
    var x, y := ToAsciiLowercase(a), ToAsciiLowercase(b);
    if |a| == |b| {
      assert forall i :: 0 <= i < |a| ==> (x[i] == y[i] <==> SameLetter(a[i], b[i]));
    }
  }

  function Admins(users: Users): set<Id> {
    set id | id in users && Admin in users[id].roles
  }

  // ----- decisions -----

  predicate ValidUsername(username: string) {
    username != "" && ByteLength(username) <= 64 && Plain(username)
  }

  function PlanCreate(users: Users, id: Id, username: string, password: string, roles: seq<Role>, hash: string, now: Time)
    : Result<Plan, AppError>
  {
    var name := Trim(username);
    if !ValidUsername(name) then Err(Validation)
    else if ByteLength(password) < MIN_PASSWORD_LEN then Err(Validation)
    else if exists other :: other in users && SameName(users[other].username, name) then Err(Conflict)
    else Ok(Save(id, StoredUser(id, name, roles, now, None, hash, false, NO_TWO_FACTOR)))
  }

  /** An administrator changes roles, resets the password (its hash already computed), or both. */
  function PlanUpdate(users: Users, id: Id, roles: Option<seq<Role>>, password: Option<string>, hash: string)
    : Result<Plan, AppError>
  {
    if id !in users then Err(NotFound)
    else
      var user := users[id];
      if roles.Some? && Admin in user.roles && Admin !in roles.value && |Admins(users)| <= 1 then Err(Conflict)
      else if password.Some? && ByteLength(password.value) < MIN_PASSWORD_LEN then Err(Validation)
      else
        var changed := if roles.Some? then user.(roles := roles.value) else user;
        Ok(Save(id, if password.Some? then changed.(passwordHash := hash, mustChangePassword := false) else changed))
  }

  function PlanDelete(users: Users, id: Id): Result<Plan, AppError> {
    if id !in users then Err(NotFound)
    else if Admin in users[id].roles && |Admins(users)| <= 1 then Err(Conflict)
    else Ok(Remove(id))
  }

  function PlanChangePassword(crypto: Crypto, users: Users, id: Id, current: string, password: string, hash: string)
    : Result<Plan, AppError>
  {
    if ByteLength(password) < MIN_PASSWORD_LEN then Err(Validation)
    else if id !in users then Err(Unauthorized)
    else if !crypto.verifyPassword(current, users[id].passwordHash) then Err(Unauthorized)
    else Ok(Save(id, users[id].(passwordHash := hash, mustChangePassword := false)))
  }

  function PlanSetup(users: Users, id: Id, secret: string): Result<Plan, AppError> {
    if id !in users then Err(Unauthorized)
    else if users[id].twoFactor.enabled then Err(Conflict)
    else Ok(Save(id, users[id].(twoFactor := TwoFactor(Some(secret), false, []))))
  }

  function PlanConfirm(crypto: Crypto, users: Users, id: Id, code: string, now: Time, hashes: seq<string>)
    : Result<Plan, AppError>
  {
    if id !in users then Err(Unauthorized)
    else if users[id].twoFactor.enabled then Err(Conflict)
    else if users[id].twoFactor.secret.None? then Err(Conflict)
    else if !crypto.verifyTotp(users[id].twoFactor.secret.value, code, now) then Err(Validation)
    else Ok(Save(id, users[id].(twoFactor := TwoFactor(users[id].twoFactor.secret, true, hashes))))
  }

  /** The second half of disabling, after the code was verified. */
  function PlanClear(users: Users, id: Id): Result<Plan, AppError> {
    if id !in users then Err(Unauthorized) else Ok(Save(id, users[id].(twoFactor := NO_TWO_FACTOR)))
  }

  function Position(hashes: seq<string>, target: string): (r: Option<nat>)
    ensures r.Some? ==> r.value < |hashes| && hashes[r.value] == target
    ensures r.None? ==> target !in hashes
  {
    if hashes == [] then None
    else if hashes[0] == target then Some(0)
    else match Position(hashes[1..], target) case None => None case Some(i) => Some(i + 1)
  }

  /** Spending one recovery code: the first stored hash equal to `target` is removed. */
  function PlanSpend(users: Users, id: Id, target: string): Result<Plan, AppError> {
    if id !in users then Err(Unauthorized)
    else
      var hashes := users[id].twoFactor.recoveryHashes;
      match Position(hashes, target)
      case None => Err(Unauthorized)
      case Some(i) =>
        Ok(Save(id, users[id].(twoFactor := users[id].twoFactor.(recoveryHashes := hashes[..i] + hashes[i + 1..]))))
  }

  /** No plan stores a password of fewer than eight bytes, nor a name that is empty, longer than 64 bytes or not plain. */
  lemma PlansAreScreened(crypto: Crypto, users: Users, id: Id, username: string, given: Option<string>, current: string,
                         password: string, roles: seq<Role>, hash: string, now: Time)
    ensures PlanCreate(users, id, username, password, roles, hash, now).Ok? ==>
              && 8 <= ByteLength(password) && 1 <= ByteLength(Trim(username)) <= 64
              && forall c :: c in Trim(username) ==> !IsWhitespace(c) && !IsControl(c)
    ensures PlanUpdate(users, id, None, given, hash).Ok? && given.Some? ==> 8 <= ByteLength(given.value)
    ensures PlanChangePassword(crypto, users, id, current, password, hash).Ok? ==> 8 <= ByteLength(password)
    ensures PlanCreate(users, id, username, password, roles, hash, now) == Err(Validation) <==>
            || ByteLength(password) < 8 || ByteLength(Trim(username)) == 0 || ByteLength(Trim(username)) > 64
            || exists c :: c in Trim(username) && (IsWhitespace(c) || IsControl(c))
  {
    hide Trim, SameName, IsWhitespace, IsControl;
    assert ByteLength("") == 0;
  }

  // ----- what every plan keeps -----

  ghost predicate UniqueNames(users: Users) {
    forall a, b :: a in users && b in users && a != b ==> !SameName(users[a].username, users[b].username)
  }

  ghost predicate Sound(users: Users) {
    && (forall id :: id in users ==> users[id].id == id)
    && Admins(users) != {}
    && UniqueNames(users)
  }

  /** Everything about an account except when it last logged in. */
  function Settled(user: StoredUser): StoredUser {
    user.(lastLogin := None)
  }

  ghost predicate Agree(cache: Users, store: Users) {
    cache.Keys == store.Keys && forall id :: id in cache ==> Settled(cache[id]) == Settled(store[id])
  }

  /** Replacing an account by one of the same name keeps names unique. */
  lemma SaveKeepsNames(users: Users, id: Id, user: StoredUser)
    requires UniqueNames(users)
    requires forall other :: other in users && other != id ==> !SameName(users[other].username, user.username)
    ensures UniqueNames(users[id := user])
  {
  }

  /** An account that stays an administrator, or is not the only one, leaves an administrator. */
  lemma SaveKeepsAdmin(users: Users, id: Id, user: StoredUser)
    requires Admins(users) != {}
    requires id in users && Admin in users[id].roles && Admin !in user.roles ==> |Admins(users)| > 1
    ensures Admins(users[id := user]) != {}
  {
    AnotherAdmin(users, id);
    if id in users && Admin in users[id].roles && Admin !in user.roles {
      var other :| other in Admins(users) && other != id;
      assert other in Admins(users[id := user]);
    } else if Admins(users) == {id} {
      assert id in Admins(users) && id in Admins(users[id := user]);
    } else {
      var other :| other in Admins(users) && other != id;
      assert other in Admins(users[id := user]);
    }
  }

  lemma AnotherAdmin(users: Users, id: Id)
    requires Admins(users) != {}
    ensures |Admins(users)| > 1 || Admins(users) != {id} ==> exists other :: other in Admins(users) && other != id
  {
    if |Admins(users)| > 1 || Admins(users) != {id} {
      var rest := Admins(users) - {id};
      assert Admins(users) <= rest + {id};
      assert rest == {} ==> |Admins(users)| <= |{id}| by {
        Subset(Admins(users), rest + {id});
      }
      var other :| other in rest;
    }
  }

  /** Saving an account under its own id, with its own name, and still an administrator if it was the last one. */
  lemma SaveKeepsSound(users: Users, id: Id, user: StoredUser)
    requires Sound(users) && user.id == id
    requires id in users ==> user.username == users[id].username
    requires id !in users ==> forall other :: other in users ==> !SameName(users[other].username, user.username)
    requires id in users && Admin in users[id].roles && Admin !in user.roles ==> |Admins(users)| > 1
    ensures Sound(users[id := user])
  {
    hide SameName;
    SaveKeepsNames(users, id, user);
    SaveKeepsAdmin(users, id, user);
  }

  lemma RemoveKeepsSound(users: Users, id: Id)
    requires Sound(users) && id in users
    requires Admin in users[id].roles ==> |Admins(users)| > 1
    ensures Sound(users - {id})
  {
    hide SameName;
    AnotherAdmin(users, id);
    var other :| other in Admins(users) && other != id;
    assert other in Admins(users - {id});
  }
}

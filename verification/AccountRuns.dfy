/** Runs of the account service: operations serialized by the mutation lock, each reading the cache, writing the store and
    then updating the cache, while logins touch the cache at any moment, requests may be dropped and the process may
    restart. */
module AccountRuns {
  import opened Wrappers
  import opened Text
  import opened Accounts

  datatype Operation = Create(id: Id, username: string, password: string, roles: seq<Role>, hash: string, now: Time)
                     | Update(id: Id, newRoles: Option<seq<Role>>, newPassword: Option<string>, hash: string)
                     | Delete(id: Id)
                     | ChangePassword(id: Id, current: string, password: string, hash: string)
                     | Setup(id: Id, secret: string)
                     | Confirm(id: Id, code: string, now: Time, hashes: seq<string>)
                     | Clear(id: Id)
                     | Spend(id: Id, target: string)

  function PlanOf(crypto: Crypto, users: Users, op: Operation): Result<Plan, AppError> {
    match op
    case Create(id, username, password, roles, hash, now) => PlanCreate(users, id, username, password, roles, hash, now)
    case Update(id, roles, password, hash) => PlanUpdate(users, id, roles, password, hash)
    case Delete(id) => PlanDelete(users, id)
    case ChangePassword(id, current, password, hash) => PlanChangePassword(crypto, users, id, current, password, hash)
    case Setup(id, secret) => PlanSetup(users, id, secret)
    case Confirm(id, code, now, hashes) => PlanConfirm(crypto, users, id, code, now, hashes)
    case Clear(id) => PlanClear(users, id)
    case Spend(id, target) => PlanSpend(users, id, target)
  }

  /** Who holds the lock, and how far it got. */
  datatype Holder = Nobody | Planned(op: Operation, plan: Plan) | Persisted(op: Operation, plan: Plan)

  /** The recovery codes of one enrolment: issued at confirmation, accepted since, and spent by a request that was dropped,
      or cut off by a restart, before it was answered. */
  datatype Books = Books(issued: multiset<string>, accepted: multiset<string>, lost: multiset<string>)

  datatype State = State(cache: Users, store: Users, holder: Holder, books: map<Id, Books>)

  datatype Step = Lock(op: Operation)        // take the lock and decide
                | Persist(ok: bool)          // write the store, or fail to
                | Publish                    // update the cache, answer, release the lock
                | Touch(id: Id, now: Time)   // a login records its time, without the lock
                | Abandon                    // the request holding the lock is dropped, and the lock with it
                | Restart(id: Id, hash: string, mustChange: bool, now: Time)  // load the store, or seed an empty one

  function NewBooks(hashes: seq<string>): Books {
    Books(multiset(hashes), multiset{}, multiset{})
  }

  /** The books once the store has been written. */
  function BooksAfter(books: map<Id, Books>, op: Operation, plan: Plan): map<Id, Books> {
    match plan
    case Remove(id) => books - {id}
    case Save(id, user) =>
      if op.Setup? || op.Confirm? || op.Clear? || op.Create? then books[id := NewBooks(user.twoFactor.recoveryHashes)]
      else books
  }

  function Accept(books: map<Id, Books>, op: Operation): map<Id, Books> {
    if op.Spend? && op.id in books
    then books[op.id := books[op.id].(accepted := books[op.id].accepted + multiset{op.target})] else books
  }

  function Lose(books: map<Id, Books>, holder: Holder): map<Id, Books> {
    if holder.Persisted? && holder.op.Spend? && holder.op.id in books
    then books[holder.op.id := books[holder.op.id].(lost := books[holder.op.id].lost + multiset{holder.op.target})]
    else books
  }

  /** The administrator an empty store is given. */
  function SeedUsers(id: Id, hash: string, mustChange: bool, now: Time): Users {
    map[id := StoredUser(id, "admin", [Admin], now, None, hash, mustChange, NO_TWO_FACTOR)]
  }

  function After(crypto: Crypto, s: State, step: Step): Option<State> {
    match step
    case Lock(op) =>
      if s.holder != Nobody || (op.Create? && op.id in s.cache) then None
      else
        (match PlanOf(crypto, s.cache, op)
         case Err(_) => None
         case Ok(plan) => Some(s.(holder := Planned(op, plan))))
    case Persist(ok) =>
      if !s.holder.Planned? then None
      else if ok then
        Some(s.(store := Apply(s.store, s.holder.plan), holder := Persisted(s.holder.op, s.holder.plan),
                books := BooksAfter(s.books, s.holder.op, s.holder.plan)))
      else Some(s.(holder := Nobody))
    case Publish =>
      if !s.holder.Persisted? then None
      else Some(s.(cache := Apply(s.cache, s.holder.plan), holder := Nobody, books := Accept(s.books, s.holder.op)))
    case Touch(id, now) =>
      if id !in s.cache then None else Some(s.(cache := s.cache[id := s.cache[id].(lastLogin := Some(now))]))
    case Abandon =>
      if s.holder == Nobody then None else Some(s.(holder := Nobody, books := Lose(s.books, s.holder)))
    case Restart(id, hash, mustChange, now) =>
      var books := Lose(s.books, s.holder);
      if s.store != map[] then Some(State(s.store, s.store, Nobody, books))
      else if id in books then None
      else
        var users := SeedUsers(id, hash, mustChange, now);
        Some(State(users, users, Nobody, books[id := NewBooks([])]))
  }

  function Run(crypto: Crypto, s: State, steps: seq<Step>): Option<State>
    decreases |steps|
  {
    if steps == [] then Some(s)
    else
      match After(crypto, s, steps[0])
      case None => None
      case Some(next) => Run(crypto, next, steps[1..])
  }

  // ----- dropped requests -----

  /** Dropping a request after its store write does no harm when it had nothing to publish. */
  ghost predicate Harmless(s: State, step: Step) {
    step.Abandon? && s.holder.Persisted? ==> Agree(Apply(s.cache, s.holder.plan), s.cache)
  }

  /** No request of the run is dropped between writing the store and publishing a change. */
  ghost predicate Undisturbed(crypto: Crypto, s: State, steps: seq<Step>)
    decreases |steps|
  {
    steps != [] ==>
      && Harmless(s, steps[0])
      && (After(crypto, s, steps[0]).Some? ==> Undisturbed(crypto, After(crypto, s, steps[0]).value, steps[1..]))
  }

  /** A step that takes a spent code with it before its request is answered. */
  predicate LosesCode(s: State, step: Step) {
    (step.Restart? || step.Abandon?) && s.holder.Persisted? && s.holder.op.Spend?
  }

  /** Every code spent in the run is answered for. */
  ghost predicate AllAnswered(crypto: Crypto, s: State, steps: seq<Step>)
    decreases |steps|
  {
    steps != [] ==>
      && !LosesCode(s, steps[0])
      && (After(crypto, s, steps[0]).Some? ==> AllAnswered(crypto, After(crypto, s, steps[0]).value, steps[1..]))
  }

  /** First boot: one administrator. */
  function Seeded(id: Id, hash: string, mustChange: bool, now: Time): State {
    State(SeedUsers(id, hash, mustChange, now), SeedUsers(id, hash, mustChange, now), Nobody, map[id := NewBooks([])])
  }

  // ----- decisions are sound -----

  /** How the plan of an operation relates to the account it was made from. */
  ghost predicate Fits(users: Users, op: Operation, plan: Plan) {
    && plan.id == op.id
    && (op.Delete? <==> plan.Remove?)
    && (op.Create? ==> op.id !in users && plan.user.twoFactor.recoveryHashes == [])
    && (!op.Create? ==> op.id in users)
    && (op.Update? || op.ChangePassword? ==>
          plan.user.twoFactor.recoveryHashes == users[op.id].twoFactor.recoveryHashes)
    && (op.Spend? ==> multiset(plan.user.twoFactor.recoveryHashes) + multiset{op.target}
                      == multiset(users[op.id].twoFactor.recoveryHashes))
  }

  lemma SpendTakesOne(hashes: seq<string>, target: string)
    requires Position(hashes, target).Some?
    ensures var i := Position(hashes, target).value;
            multiset(hashes[..i] + hashes[i + 1..]) + multiset{target} == multiset(hashes)
  {
    var i := Position(hashes, target).value;
    var rest := hashes[i + 1..];
    assert hashes == hashes[..i] + [target] + rest;
    assert multiset(hashes) == multiset(hashes[..i]) + multiset([target]) + multiset(rest);
  }

  lemma PlansFit(crypto: Crypto, users: Users, op: Operation)
    requires op.Create? ==> op.id !in users
    requires PlanOf(crypto, users, op).Ok?
    ensures Fits(users, op, PlanOf(crypto, users, op).value)
  {
    if op.Spend? {
      hide PlanSpend;
      SpendFits(users, op.id, op.target);
    } else if op.Create? || op.Update? || op.Delete? || op.ChangePassword? {
      AccountPlansFit(crypto, users, op);
    } else {
      FactorPlansFit(crypto, users, op);
    }
  }

  lemma AccountPlansFit(crypto: Crypto, users: Users, op: Operation)
    requires op.Create? || op.Update? || op.Delete? || op.ChangePassword?
    requires (op.Create? ==> op.id !in users) && PlanOf(crypto, users, op).Ok?
    ensures Fits(users, op, PlanOf(crypto, users, op).value)
  {
    hide ValidUsername, SameName, PlanSetup, PlanConfirm, PlanClear, PlanSpend;
  }

  lemma FactorPlansFit(crypto: Crypto, users: Users, op: Operation)
    requires op.Setup? || op.Confirm? || op.Clear?
    requires PlanOf(crypto, users, op).Ok?
    ensures Fits(users, op, PlanOf(crypto, users, op).value)
  {
    hide PlanCreate, PlanUpdate, PlanDelete, PlanChangePassword, PlanSpend;
  }

  lemma SpendFits(users: Users, id: Id, target: string)
    requires PlanSpend(users, id, target).Ok?
    ensures id in users && PlanSpend(users, id, target).value.Save? && PlanSpend(users, id, target).value.id == id
    ensures multiset(PlanSpend(users, id, target).value.user.twoFactor.recoveryHashes) + multiset{target}
         == multiset(users[id].twoFactor.recoveryHashes)
  {
    hide Position;
    SpendTakesOne(users[id].twoFactor.recoveryHashes, target);
  }

  /** Whatever an operation decides, the accounts stay sound: the last administrator is never lost and no two names
      coincide. */
  lemma PlansKeepSound(crypto: Crypto, users: Users, op: Operation)
    requires Sound(users) && (op.Create? ==> op.id !in users)
    requires PlanOf(crypto, users, op).Ok?
    ensures Sound(Apply(users, PlanOf(crypto, users, op).value))
  {
    hide Position, ValidUsername;
    var plan := PlanOf(crypto, users, op).value;
    match plan
    case Remove(id) => RemoveKeepsSound(users, id);
    case Save(id, user) =>
      hide SameName;
      SaveKeepsSound(users, id, user);
  }

  // ----- the cache and the store -----

  lemma AgreeFurther(a: Users, b: Users, c: Users)
    requires Agree(a, b) && Agree(b, c)
    ensures Agree(a, c)
  {
  }

  lemma AgreeApply(a: Users, b: Users, plan: Plan)
    requires Agree(a, b)
    ensures Agree(Apply(a, plan), Apply(b, plan))
  {
    hide Settled;
  }

  lemma TouchAgrees(users: Users, id: Id, now: Time)
    requires id in users
    ensures Agree(users[id := users[id].(lastLogin := Some(now))], users)
  {
  }

  lemma SoundAgrees(a: Users, b: Users)
    requires Agree(a, b) && Sound(a)
    ensures Sound(b)
  {
    forall id | id in a
      ensures a[id].id == b[id].id && a[id].username == b[id].username && a[id].roles == b[id].roles
    {
      assert Settled(a[id]) == Settled(b[id]);
    }
    assert Admins(a) == Admins(b);
    hide SameName;
  }

  lemma FitsAgrees(a: Users, b: Users, op: Operation, plan: Plan)
    requires Agree(a, b) && Fits(a, op, plan)
    ensures Fits(b, op, plan)
  {
    if op.id in a {
      assert Settled(a[op.id]) == Settled(b[op.id]);
    }
  }

  // ----- the invariant -----

  /** The code a persisted but unanswered request has spent. */
  function InFlight(holder: Holder, id: Id): multiset<string> {
    if holder.Persisted? && holder.op.Spend? && holder.op.id == id then multiset{holder.op.target} else multiset{}
  }

  ghost predicate Balanced(store: Users, holder: Holder, books: map<Id, Books>) {
    forall id :: id in store ==> BalancedAt(store, holder, books, id)
  }

  ghost predicate BalancedAt(store: Users, holder: Holder, books: map<Id, Books>, id: Id)
    requires id in store
  {
    && id in books
    && books[id].accepted + books[id].lost + InFlight(holder, id) + multiset(store[id].twoFactor.recoveryHashes)
       == books[id].issued
  }

  ghost predicate Consistent(s: State) {
    && Sound(s.cache) && Sound(s.store)
    && match s.holder
       case Nobody => Agree(s.cache, s.store)
       case Planned(op, plan) => Agree(s.cache, s.store) && Fits(s.store, op, plan) && Sound(Apply(s.store, plan))
       case Persisted(op, plan) => Agree(Apply(s.cache, plan), s.store) && plan.id == op.id && (op.Delete? <==> plan.Remove?)
  }

  ghost predicate Inv(s: State) {
    Consistent(s) && Balanced(s.store, s.holder, s.books)
  }

  lemma LockKeeps(crypto: Crypto, s: State, op: Operation, next: State)
    requires Inv(s) && After(crypto, s, Lock(op)) == Some(next)
    ensures Inv(next)
  {
    hide Sound, Agree, Fits, PlanOf;
    PlansFit(crypto, s.cache, op);
    PlansKeepSound(crypto, s.cache, op);
    var plan := PlanOf(crypto, s.cache, op).value;
    AgreeApply(s.cache, s.store, plan);
    SoundAgrees(Apply(s.cache, plan), Apply(s.store, plan));
    FitsAgrees(s.cache, s.store, op, plan);
  }

  lemma PersistKeeps(crypto: Crypto, s: State, ok: bool, next: State)
    requires Inv(s) && After(crypto, s, Persist(ok)) == Some(next)
    ensures Inv(next)
  {
    hide Sound, Agree;
    if ok {
      AgreeApply(s.cache, s.store, s.holder.plan);
      PersistBalances(s.store, s.holder.op, s.holder.plan, s.books);
    }
  }

  lemma PersistBalances(store: Users, op: Operation, plan: Plan, books: map<Id, Books>)
    requires Balanced(store, Nobody, books) && Fits(store, op, plan)
    ensures Balanced(Apply(store, plan), Persisted(op, plan), BooksAfter(books, op, plan))
  {
    var after, booked := Apply(store, plan), BooksAfter(books, op, plan);
    forall id | id in after
      ensures BalancedAt(after, Persisted(op, plan), booked, id)
    {
      if id == plan.id {
        SavedBalances(store, op, plan, books);
      } else {
        assert BalancedAt(store, Nobody, books, id);
      }
    }
  }

  lemma SavedBalances(store: Users, op: Operation, plan: Plan, books: map<Id, Books>)
    requires Balanced(store, Nobody, books) && Fits(store, op, plan) && plan.Save?
    ensures BalancedAt(Apply(store, plan), Persisted(op, plan), BooksAfter(books, op, plan), plan.id)
  {
    var id := plan.id;
    var remaining := multiset(plan.user.twoFactor.recoveryHashes);
    if op.Setup? || op.Confirm? || op.Clear? || op.Create? {
      assert multiset{} + multiset{} + multiset{} + remaining == remaining;
    } else {
      assert BalancedAt(store, Nobody, books, id);
      var b, before := books[id], multiset(store[id].twoFactor.recoveryHashes);
      if op.Spend? {
        SpendRow(b.accepted, b.lost, multiset{op.target}, remaining, before);
      }
    }
  }

  lemma SpendRow(a: multiset<string>, b: multiset<string>, c: multiset<string>, d: multiset<string>, before: multiset<string>)
    requires d + c == before
    ensures a + b + c + d == a + b + multiset{} + before
  {
  }

  lemma PublishKeeps(crypto: Crypto, s: State, next: State)
    requires Inv(s) && After(crypto, s, Publish) == Some(next)
    ensures Inv(next)
  {
    SoundBack(Apply(s.cache, s.holder.plan), s.store);
    hide Sound, Agree, Apply;
    AcceptBalances(s.store, s.holder, s.books);
  }

  lemma SoundBack(a: Users, b: Users)
    requires Agree(a, b) && Sound(b)
    ensures Sound(a)
  {
    assert Agree(b, a);
    SoundAgrees(b, a);
  }

  lemma AcceptBalances(store: Users, holder: Holder, books: map<Id, Books>)
    requires holder.Persisted? && Balanced(store, holder, books)
    ensures Balanced(store, Nobody, Accept(books, holder.op))
    ensures Balanced(store, Nobody, Lose(books, holder))
  {
    forall id | id in store
      ensures BalancedAt(store, Nobody, Accept(books, holder.op), id) && BalancedAt(store, Nobody, Lose(books, holder), id)
    {
      assert BalancedAt(store, holder, books, id);
      var b := books[id];
      var spent := InFlight(holder, id);
      Rearranged(b.accepted, b.lost, spent, multiset(store[id].twoFactor.recoveryHashes));
    }
  }

  lemma Rearranged(a: multiset<string>, b: multiset<string>, c: multiset<string>, d: multiset<string>)
    ensures a + c + b + multiset{} + d == a + b + c + d
    ensures a + (b + c) + multiset{} + d == a + b + c + d
  {
  }

  lemma TouchKeeps(crypto: Crypto, s: State, id: Id, now: Time, next: State)
    requires Inv(s) && After(crypto, s, Touch(id, now)) == Some(next)
    ensures Inv(next)
  {
    hide Sound, Agree, Fits, Apply;
    TouchAgrees(s.cache, id, now);
    SoundBack(next.cache, s.cache);
    match s.holder
    case Persisted(op, plan) =>
      AgreeApply(next.cache, s.cache, plan);
      AgreeFurther(Apply(next.cache, plan), Apply(s.cache, plan), s.store);
    case _ =>
      AgreeFurther(next.cache, s.cache, s.store);
  }

  lemma RestartKeeps(crypto: Crypto, s: State, step: Step, next: State)
    requires step.Restart? && Inv(s) && After(crypto, s, step) == Some(next)
    ensures Inv(next)
  {
    hide Sound, Agree, Balanced, SeedUsers, Fits, Apply, Lose;
    SoundNotEmpty(s.store);
    AgreeSelf(s.store);
    if s.holder.Persisted? {
      AcceptBalances(s.store, s.holder, s.books);
    } else {
      PlannedBalances(s.store, s.holder, s.books);
    }
  }

  lemma AgreeSelf(users: Users)
    ensures Agree(users, users)
  {
  }

  lemma AgreeBack(a: Users, b: Users)
    requires Agree(a, b)
    ensures Agree(b, a)
  {
  }

  /** Dropping a request that has written the store leaves cache and store in agreement exactly when the request had
      nothing to publish. */
  lemma AbandonExactly(crypto: Crypto, s: State, next: State)
    requires Inv(s) && s.holder.Persisted? && After(crypto, s, Abandon) == Some(next)
    ensures Agree(next.cache, next.store) <==> Agree(Apply(s.cache, s.holder.plan), s.cache)
  {
    hide Sound, Agree, Apply, Balanced;
    var planned := Apply(s.cache, s.holder.plan);
    AgreeBack(planned, s.store);
    if Agree(s.cache, s.store) {
      AgreeFurther(s.cache, s.store, planned);
      AgreeBack(s.cache, planned);
    }
    if Agree(planned, s.cache) {
      AgreeBack(planned, s.cache);
      AgreeFurther(s.cache, planned, s.store);
    }
  }

  lemma AbandonKeeps(crypto: Crypto, s: State, next: State)
    requires Inv(s) && After(crypto, s, Abandon) == Some(next) && Harmless(s, Abandon)
    ensures Inv(next)
  {
    hide Sound, Agree, Apply, Balanced, Fits;
    if s.holder.Persisted? {
      AbandonExactly(crypto, s, next);
      AcceptBalances(s.store, s.holder, s.books);
    } else {
      PlannedBalances(s.store, s.holder, s.books);
    }
  }

  lemma PlannedBalances(store: Users, holder: Holder, books: map<Id, Books>)
    requires !holder.Persisted? && Balanced(store, holder, books)
    ensures Balanced(store, Nobody, Lose(books, holder))
  {
    assert forall id :: id in store ==> BalancedAt(store, holder, books, id);
  }

  lemma SoundNotEmpty(users: Users)
    requires Sound(users)
    ensures users != map[]
  {
    var id :| id in Admins(users);
  }

  lemma {:induction false} RunKeeps(crypto: Crypto, s: State, steps: seq<Step>)
    requires Inv(s) && Run(crypto, s, steps).Some? && Undisturbed(crypto, s, steps)
    ensures Inv(Run(crypto, s, steps).value)
    decreases |steps|
  {
    hide Inv, After, Harmless;
    if steps != [] {
      var next := After(crypto, s, steps[0]).value;
      match steps[0] {
        case Abandon => AbandonKeeps(crypto, s, next);
        case Lock(op) => LockKeeps(crypto, s, op, next);
        case Persist(ok) => PersistKeeps(crypto, s, ok, next);
        case Publish => PublishKeeps(crypto, s, next);
        case Touch(id, now) => TouchKeeps(crypto, s, id, now, next);
        case Restart(_, _, _, _) => RestartKeeps(crypto, s, steps[0], next);
      }
      RunKeeps(crypto, next, steps[1..]);
    }
  }

  lemma SeedHolds(id: Id, hash: string, mustChange: bool, now: Time)
    ensures Inv(Seeded(id, hash, mustChange, now))
  {
    assert id in Admins(Seeded(id, hash, mustChange, now).cache);
  }

  // ----- whole runs -----

  /** From the seed on, whatever fails or restarts, as long as no request is dropped between writing the store and
      publishing a change: there is an administrator, names are unique ignoring ASCII case, and whenever the lock is free the
      cache and the store agree on everything but the time of the last login. */
  lemma AccountsStaySound(crypto: Crypto, id: Id, hash: string, mustChange: bool, now: Time, steps: seq<Step>)
    requires Run(crypto, Seeded(id, hash, mustChange, now), steps).Some?
    requires Undisturbed(crypto, Seeded(id, hash, mustChange, now), steps)
    ensures var s := Run(crypto, Seeded(id, hash, mustChange, now), steps).value;
            && Admins(s.cache) != {} && Admins(s.store) != {}
            && UniqueNames(s.cache) && UniqueNames(s.store)
            && (!s.holder.Persisted? ==> Agree(s.cache, s.store))
            && (s.holder.Persisted? ==> Agree(Apply(s.cache, s.holder.plan), s.store))
  {
    hide Run, Agree, UniqueNames, Admins, Seeded, Apply, Undisturbed;
    SeedHolds(id, hash, mustChange, now);
    RunKeeps(crypto, Seeded(id, hash, mustChange, now), steps);
  }

  /** Recovery codes are conserved in the same runs: accepted, lost, in flight, and still stored add up to those issued at
      confirmation. No code is accepted more often than it was issued. */
  lemma RecoveryCodesConserved(crypto: Crypto, id: Id, hash: string, mustChange: bool, now: Time, steps: seq<Step>, user: Id)
    requires Run(crypto, Seeded(id, hash, mustChange, now), steps).Some?
    requires Undisturbed(crypto, Seeded(id, hash, mustChange, now), steps)
    requires user in Run(crypto, Seeded(id, hash, mustChange, now), steps).value.store
    ensures var s := Run(crypto, Seeded(id, hash, mustChange, now), steps).value;
            && user in s.books
            && s.books[user].accepted + s.books[user].lost + InFlight(s.holder, user)
               + multiset(s.store[user].twoFactor.recoveryHashes) == s.books[user].issued
            && forall code :: s.books[user].accepted[code] <= s.books[user].issued[code]
  {
    hide Run, Consistent, Seeded, Undisturbed;
    SeedHolds(id, hash, mustChange, now);
    RunKeeps(crypto, Seeded(id, hash, mustChange, now), steps);
    var s := Run(crypto, Seeded(id, hash, mustChange, now), steps).value;
    assert BalancedAt(s.store, s.holder, s.books, user);
    assert s.books[user].accepted <= s.books[user].issued;
  }

  /** The books record a loss exactly when a request is dropped or cut off after spending a code and before its answer. */
  lemma LossExactly(crypto: Crypto, s: State, step: Step, next: State, id: Id)
    requires After(crypto, s, step) == Some(next) && id in s.books && id in next.books
    ensures (exists code :: next.books[id].lost[code] > s.books[id].lost[code]) <==>
            LosesCode(s, step) && s.holder.op.id == id
  {
    hide PlanOf, Apply;
    if LosesCode(s, step) && s.holder.op.id == id {
      var code := s.holder.op.target;
      assert next.books[id].lost[code] == s.books[id].lost[code] + 1;
    } else {
      assert next.books[id].lost == s.books[id].lost || next.books[id].lost == multiset{};
    }
  }

  lemma NothingLostAt(crypto: Crypto, s: State, step: Step, next: State)
    requires After(crypto, s, step) == Some(next) && !LosesCode(s, step)
    requires forall id :: id in s.books ==> s.books[id].lost == multiset{}
    ensures forall id :: id in next.books ==> next.books[id].lost == multiset{}
  {
    hide PlanOf, Apply;
  }

  /** While every spent code is answered for, none is lost, so accepted plus remaining is exactly issued whenever the lock
      is free. */
  lemma {:induction false} NothingLostWhenAnswered(crypto: Crypto, s: State, steps: seq<Step>)
    requires Run(crypto, s, steps).Some? && AllAnswered(crypto, s, steps)
    requires forall id :: id in s.books ==> s.books[id].lost == multiset{}
    ensures forall id :: id in Run(crypto, s, steps).value.books ==> Run(crypto, s, steps).value.books[id].lost == multiset{}
    decreases |steps|
  {
    hide After, LosesCode;
    if steps != [] {
      NothingLostAt(crypto, s, steps[0], After(crypto, s, steps[0]).value);
      NothingLostWhenAnswered(crypto, After(crypto, s, steps[0]).value, steps[1..]);
    }
  }

  // ----- what a dropped request can do -----

  lemma RunStep(crypto: Crypto, s: State, step: Step, next: State, rest: seq<Step>)
    requires After(crypto, s, step) == Some(next)
    ensures Run(crypto, s, [step] + rest) == Run(crypto, next, rest)
  {
    hide After;
    assert ([step] + rest)[1..] == rest;
  }

  /** An operation up to its store write. */
  lemma RunToWrite(crypto: Crypto, s: State, op: Operation, plan: Plan, rest: seq<Step>)
    requires s.holder == Nobody && (op.Create? ==> op.id !in s.cache) && PlanOf(crypto, s.cache, op) == Ok(plan)
    ensures Run(crypto, s, [Lock(op)] + ([Persist(true)] + rest))
         == Run(crypto, State(s.cache, Apply(s.store, plan), Persisted(op, plan), BooksAfter(s.books, op, plan)), rest)
  {
    hide PlanOf, Apply, BooksAfter, Run;
    var planned := s.(holder := Planned(op, plan));
    RunStep(crypto, s, Lock(op), planned, [Persist(true)] + rest);
    RunStep(crypto, planned, Persist(true),
            State(s.cache, Apply(s.store, plan), Persisted(op, plan), BooksAfter(s.books, op, plan)), rest);
  }

  /** An operation from the lock to the answer. */
  lemma RunToAnswer(crypto: Crypto, s: State, op: Operation, plan: Plan, rest: seq<Step>)
    requires s.holder == Nobody && (op.Create? ==> op.id !in s.cache) && PlanOf(crypto, s.cache, op) == Ok(plan)
    ensures Run(crypto, s, [Lock(op)] + ([Persist(true)] + ([Publish] + rest)))
         == Run(crypto, State(Apply(s.cache, plan), Apply(s.store, plan), Nobody,
                              Accept(BooksAfter(s.books, op, plan), op)), rest)
  {
    RunToWrite(crypto, s, op, plan, [Publish] + rest);
    hide PlanOf, Apply, BooksAfter, Run, Accept;
    var written := State(s.cache, Apply(s.store, plan), Persisted(op, plan), BooksAfter(s.books, op, plan));
    RunStep(crypto, written, Publish,
            State(Apply(s.cache, plan), Apply(s.store, plan), Nobody, Accept(BooksAfter(s.books, op, plan), op)), rest);
  }

  function NewUser(id: Id, username: string, role: Role, hash: string): StoredUser {
    StoredUser(id, Trim(username), [role], 0, None, hash, false, NO_TWO_FACTOR)
  }

  /** Deleting two administrators, the first request dropped after its store write, and a restart. */
  function TwoDeletions(a: Id, b: Id, seed: Id, hash: string): seq<Step> {
    [Lock(Delete(a))] + ([Persist(true)] + ([Abandon]
    + ([Lock(Delete(b))] + ([Persist(true)] + ([Restart(seed, hash, false, 0)] + [])))))
  }

  lemma TwoAdmins(users: Users, a: Id, b: Id)
    requires a != b && Admins(users) == {a, b}
    ensures PlanDelete(users, a) == Ok(Remove(a)) && PlanDelete(users, b) == Ok(Remove(b))
    ensures Admins(users - {a} - {b}) == {}
  {
    assert a in Admins(users) && b in Admins(users);
    var rest := users - {a} - {b};
    forall id | id in rest
      ensures Admin !in rest[id].roles
    {
      assert id !in Admins(users) && rest[id] == users[id];
    }
  }

  lemma LastAdminDropped(crypto: Crypto, s: State, a: Id, b: Id, c: Id, seed: Id, hash: string)
    requires s.holder == Nobody && s.cache == s.store && a != b && Admins(s.cache) == {a, b}
    requires c in s.cache && c != a && c != b
    ensures var end := Run(crypto, s, TwoDeletions(a, b, seed, hash));
            && end.Some? && end.value.holder == Nobody && c in end.value.cache
            && end.value.store == end.value.cache && Admins(end.value.cache) == {}
  {
    TwoAdmins(s.cache, a, b);
    hide Run, PlanDelete, Admins, BooksAfter, Lose, SeedUsers;
    var restart := Restart(seed, hash, false, 0);
    var second := [Lock(Delete(b))] + ([Persist(true)] + ([restart] + []));
    RunToWrite(crypto, s, Delete(a), Remove(a), [Abandon] + second);
    var written := State(s.cache, s.store - {a}, Persisted(Delete(a), Remove(a)), BooksAfter(s.books, Delete(a), Remove(a)));
    var dropped := written.(holder := Nobody, books := Lose(written.books, written.holder));
    RunStep(crypto, written, Abandon, dropped, second);
    RunToWrite(crypto, dropped, Delete(b), Remove(b), [restart] + []);
    var last := State(dropped.cache, dropped.store - {b}, Persisted(Delete(b), Remove(b)),
                      BooksAfter(dropped.books, Delete(b), Remove(b)));
    assert c in last.store;
    var end := State(last.store, last.store, Nobody, Lose(last.books, last.holder));
    RunStep(crypto, last, restart, end, []);
    NoSteps(crypto, end);
  }

  lemma NoSteps(crypto: Crypto, s: State)
    ensures Run(crypto, s, []) == Some(s)
  {
  }

  /** Creating an account from the lock to the answer. */
  function CreateSteps(id: Id, username: string, password: string, role: Role, hash: string, rest: seq<Step>): seq<Step> {
    [Lock(Create(id, username, password, [role], hash, 0))] + ([Persist(true)] + ([Publish] + rest))
  }

  lemma CreateRuns(crypto: Crypto, s: State, id: Id, username: string, password: string, role: Role, hash: string,
                   rest: seq<Step>) returns (next: State)
    requires s.holder == Nobody && s.cache == s.store && id !in s.cache && ValidUsername(Trim(username))
    requires ByteLength(password) >= MIN_PASSWORD_LEN
    requires forall other :: other in s.cache ==> !SameName(s.cache[other].username, Trim(username))
    ensures Run(crypto, s, CreateSteps(id, username, password, role, hash, rest)) == Run(crypto, next, rest)
    ensures next.holder == Nobody && next.cache == next.store == s.cache[id := NewUser(id, username, role, hash)]
  {
    hide ValidUsername, SameName, ByteLength, Run, Trim, BooksAfter;
    var create := Create(id, username, password, [role], hash, 0);
    var plan := Save(id, NewUser(id, username, role, hash));
    RunToAnswer(crypto, s, create, plan, rest);
    next := State(Apply(s.cache, plan), Apply(s.store, plan), Nobody, Accept(BooksAfter(s.books, create, plan), create));
  }

  /** From the seed, a dropped deletion lets the last administrator be deleted, because the stale cache still counts two;
      after the next start, which finds another account and seeds nothing, nobody is an administrator. */
  lemma LastAdminLost(crypto: Crypto, a: Id, b: Id, c: Id, username: string, other: string, password: string, hash: string)
    requires a != b && a != c && b != c && ByteLength(password) >= MIN_PASSWORD_LEN
    requires ValidUsername(Trim(username)) && ValidUsername(Trim(other))
    requires !SameName("admin", Trim(username)) && !SameName("admin", Trim(other)) && !SameName(Trim(username), Trim(other))
    ensures var steps := CreateSteps(b, username, password, Admin, hash,
                                     CreateSteps(c, other, password, Viewer, hash, TwoDeletions(a, b, a, hash)));
            var end := Run(crypto, Seeded(a, hash, false, 0), steps);
            && end.Some? && end.value.holder == Nobody && c in end.value.cache
            && end.value.store == end.value.cache && Admins(end.value.cache) == {}
  {
    hide ValidUsername, SameName, ByteLength, Run, Trim, TwoDeletions, CreateSteps;
    var deletions := TwoDeletions(a, b, a, hash);
    var s := Seeded(a, hash, false, 0);
    assert forall x :: x in s.cache ==> x == a && s.cache[x].username == "admin";
    var s1 := CreateRuns(crypto, s, b, username, password, Admin, hash, CreateSteps(c, other, password, Viewer, hash, deletions));
    var s2 := CreateRuns(crypto, s1, c, other, password, Viewer, hash, deletions);
    assert Admins(s2.cache) == {a, b};
    LastAdminDropped(crypto, s2, a, b, c, a, hash);
  }

  /** Until the next restart the running process itself never loses its last administrator or doubles a name, whatever is
      dropped. */
  ghost predicate CacheFits(s: State) {
    Sound(s.cache) && (s.holder != Nobody ==> Sound(Apply(s.cache, s.holder.plan)))
  }

  lemma CacheStep(crypto: Crypto, s: State, step: Step, next: State)
    requires CacheFits(s) && After(crypto, s, step) == Some(next) && !step.Restart?
    ensures CacheFits(next)
  {
    hide Sound, Agree, Apply, PlanOf, BooksAfter, Accept, Lose;
    if step.Lock? {
      PlansKeepSound(crypto, s.cache, step.op);
    } else if step.Touch? {
      TouchAgrees(s.cache, step.id, step.now);
      SoundBack(next.cache, s.cache);
      if s.holder != Nobody {
        AgreeApply(next.cache, s.cache, s.holder.plan);
        SoundBack(Apply(next.cache, s.holder.plan), Apply(s.cache, s.holder.plan));
      }
    }
  }

  lemma {:induction false} CacheStaysSound(crypto: Crypto, s: State, steps: seq<Step>)
    requires CacheFits(s) && Run(crypto, s, steps).Some? && forall step :: step in steps ==> !step.Restart?
    ensures CacheFits(Run(crypto, s, steps).value)
    decreases |steps|
  {
    hide CacheFits, After;
    if steps != [] {
      assert steps[0] in steps;
      CacheStep(crypto, s, steps[0], After(crypto, s, steps[0]).value);
      CacheStaysSound(crypto, After(crypto, s, steps[0]).value, steps[1..]);
    }
  }

  // ----- no code is accepted more often than issued, in any run -----

  /** The codes a step issues to an account: those of a confirmation whose store write succeeds. */
  function IssuedAt(s: State, step: Step, id: Id): multiset<string> {
    if step == Persist(true) && s.holder.Planned? && s.holder.op.Confirm? && s.holder.op.id == id && s.holder.plan.Save?
    then multiset(s.holder.plan.user.twoFactor.recoveryHashes) else multiset{}
  }

  /** The codes a step accepts from an account: the one of a spending request that is answered. */
  function AcceptedAt(s: State, step: Step, id: Id): multiset<string> {
    if step == Publish then InFlight(s.holder, id) else multiset{}
  }

  function IssuedIn(crypto: Crypto, s: State, steps: seq<Step>, id: Id): multiset<string>
    decreases |steps|
  {
    if steps == [] || After(crypto, s, steps[0]).None? then multiset{}
    else IssuedAt(s, steps[0], id) + IssuedIn(crypto, After(crypto, s, steps[0]).value, steps[1..], id)
  }

  function AcceptedIn(crypto: Crypto, s: State, steps: seq<Step>, id: Id): multiset<string>
    decreases |steps|
  {
    if steps == [] || After(crypto, s, steps[0]).None? then multiset{}
    else AcceptedAt(s, steps[0], id) + AcceptedIn(crypto, After(crypto, s, steps[0]).value, steps[1..], id)
  }

  function CodesOf(users: Users, id: Id): multiset<string> {
    if id in users then multiset(users[id].twoFactor.recoveryHashes) else multiset{}
  }

  function PlanCodes(plan: Plan, id: Id): multiset<string> {
    if plan.Save? && plan.id == id then multiset(plan.user.twoFactor.recoveryHashes) else multiset{}
  }

  /** What the plan will leave an account with, and the code it takes, come out of `pool`; a confirmation brings its own. */
  ghost predicate HolderWithin(holder: Holder, id: Id, pool: multiset<string>) {
    match holder
    case Nobody => true
    case Planned(op, plan) =>
      op.id == id && !op.Confirm? ==>
        PlanCodes(plan, id) + (if op.Spend? then multiset{op.target} else multiset{}) <= pool
    case Persisted(op, plan) => PlanCodes(plan, id) + InFlight(holder, id) <= pool
  }

  /** Every code that could still be accepted from the account is in `pool`, wherever it is kept. */
  ghost predicate Within(s: State, id: Id, pool: multiset<string>) {
    && CodesOf(s.cache, id) <= pool
    && CodesOf(s.store, id) + InFlight(s.holder, id) <= pool
    && HolderWithin(s.holder, id, pool)
    && (s.holder != Nobody ==> s.holder.plan.id == s.holder.op.id)
  }

  lemma CodesAfter(users: Users, plan: Plan, id: Id)
    ensures CodesOf(Apply(users, plan), id) == if plan.id == id then PlanCodes(plan, id) else CodesOf(users, id)
  {
  }

  lemma CodesIn(users: Users, id: Id)
    ensures id in users ==> CodesOf(users, id) == multiset(users[id].twoFactor.recoveryHashes)
  {
  }

  /** The plan of a request takes from the codes in the cache. */
  lemma LockWithin(crypto: Crypto, s: State, op: Operation, next: State, id: Id, pool: multiset<string>)
    requires Within(s, id, pool) && After(crypto, s, Lock(op)) == Some(next)
    ensures Within(next, id, pool)
  {
    hide PlanOf, Apply, CodesOf;
    PlansFit(crypto, s.cache, op);
    var plan := next.holder.plan;
    CodesIn(s.cache, op.id);
    if op.id == id && !op.Confirm? {
      if op.Spend? {
        assert PlanCodes(plan, id) + multiset{op.target} == CodesOf(s.cache, id);
      } else if op.Update? || op.ChangePassword? {
        assert PlanCodes(plan, id) == CodesOf(s.cache, id);
      } else {
        EmptyPlan(crypto, s.cache, op);
      }
    }
  }

  lemma EmptyPlan(crypto: Crypto, users: Users, op: Operation)
    requires PlanOf(crypto, users, op).Ok? && (op.Create? || op.Setup? || op.Clear? || op.Delete?)
    ensures PlanCodes(PlanOf(crypto, users, op).value, op.id) == multiset{}
  {
    hide ValidUsername, SameName;
  }

  lemma TakeAway(a: multiset<string>, b: multiset<string>, c: multiset<string>)
    requires a + b <= c
    ensures a <= c - b && b <= c
  {
  }

  lemma PersistWithin(crypto: Crypto, s: State, ok: bool, next: State, id: Id, pool: multiset<string>)
    requires Within(s, id, pool) && After(crypto, s, Persist(ok)) == Some(next)
    ensures Within(next, id, pool + IssuedAt(s, Persist(ok), id))
  {
    assert pool + multiset{} == pool;
    if ok {
      assert next == State(s.cache, Apply(s.store, s.holder.plan), Persisted(s.holder.op, s.holder.plan), next.books);
      hide After, Within;
      if s.holder.op.id == id && s.holder.op.Confirm? {
        ConfirmWithin(s, next, id, pool);
      } else {
        WriteWithin(s, next, id, pool);
      }
    } else {
      hide PlanOf, Apply, BooksAfter, PlanCodes, CodesOf;
    }
  }

  lemma ConfirmWithin(s: State, next: State, id: Id, pool: multiset<string>)
    requires Within(s, id, pool) && s.holder.Planned? && s.holder.op.id == id && s.holder.op.Confirm?
    requires next.cache == s.cache && next.store == Apply(s.store, s.holder.plan)
    requires next.holder == Persisted(s.holder.op, s.holder.plan)
    ensures Within(next, id, pool + IssuedAt(s, Persist(true), id))
  {
    hide Apply, PlanCodes, CodesOf, IssuedAt;
    CodesAfter(s.store, s.holder.plan, id);
    IssuedByPlan(s, id);
    assert PlanCodes(s.holder.plan, id) + multiset{} == PlanCodes(s.holder.plan, id);
  }

  lemma WriteWithin(s: State, next: State, id: Id, pool: multiset<string>)
    requires Within(s, id, pool) && s.holder.Planned? && !(s.holder.op.id == id && s.holder.op.Confirm?)
    requires next.cache == s.cache && next.store == Apply(s.store, s.holder.plan)
    requires next.holder == Persisted(s.holder.op, s.holder.plan)
    ensures Within(next, id, pool)
  {
    hide Apply, CodesOf, PlanCodes;
    CodesAfter(s.store, s.holder.plan, id);
    if s.holder.op.id != id {
      ForeignPlan(s.holder.plan, id);
      assert InFlight(next.holder, id) == multiset{} && InFlight(s.holder, id) == multiset{};
    }
  }

  lemma ForeignPlan(plan: Plan, id: Id)
    requires plan.id != id
    ensures PlanCodes(plan, id) == multiset{}
  {
  }

  lemma IssuedByPlan(s: State, id: Id)
    requires s.holder.Planned? && s.holder.op.Confirm? && s.holder.op.id == id && s.holder.plan.id == id
    ensures IssuedAt(s, Persist(true), id) == PlanCodes(s.holder.plan, id)
  {
  }

  lemma PublishWithin(crypto: Crypto, s: State, next: State, id: Id, pool: multiset<string>)
    requires Within(s, id, pool) && After(crypto, s, Publish) == Some(next)
    ensures InFlight(s.holder, id) <= pool
    ensures Within(next, id, pool - InFlight(s.holder, id))
  {
    hide PlanOf, Apply, BooksAfter, Accept, Lose, PlanCodes, CodesOf;
    var plan, spent := s.holder.plan, InFlight(s.holder, id);
    assert next.cache == Apply(s.cache, plan) && next.store == s.store && next.holder == Nobody;
    assert plan.id != id ==> spent == multiset{};
    hide After, InFlight;
    CodesAfter(s.cache, plan, id);
    TakeAway(CodesOf(s.store, id), spent, pool);
    if plan.id == id {
      TakeAway(PlanCodes(plan, id), spent, pool);
    } else {
      assert pool - spent == pool;
    }
    NobodyInFlight(id);
    assert CodesOf(s.store, id) + multiset{} == CodesOf(s.store, id);
  }

  lemma NobodyInFlight(id: Id)
    ensures InFlight(Nobody, id) == multiset{}
  {
  }

  /** Dropping the request, restarting or logging in moves no code. */
  lemma OtherWithin(crypto: Crypto, s: State, step: Step, next: State, id: Id, pool: multiset<string>)
    requires Within(s, id, pool) && After(crypto, s, step) == Some(next) && (step.Touch? || step.Abandon? || step.Restart?)
    ensures Within(next, id, pool)
  {
    hide PlanOf, Apply, Lose, PlanCodes, SeedUsers, CodesOf;
    NobodyInFlight(id);
    assert CodesOf(s.store, id) + multiset{} == CodesOf(s.store, id);
    match step
    case Touch(user, now) => TouchCodes(s.cache, user, now, id);
    case Restart(_, _, _, _) => SeedHasNoCodes(step, id);
    case _ =>
  }

  lemma TouchCodes(users: Users, user: Id, now: Time, id: Id)
    requires user in users
    ensures CodesOf(users[user := users[user].(lastLogin := Some(now))], id) == CodesOf(users, id)
  {
  }

  lemma SeedHasNoCodes(step: Step, id: Id)
    requires step.Restart?
    ensures CodesOf(SeedUsers(step.id, step.hash, step.mustChange, step.now), id) == multiset{}
  {
  }

  /** One step: what it issues joins the pool, what it accepts leaves it. */
  lemma StepWithin(crypto: Crypto, s: State, step: Step, next: State, id: Id, pool: multiset<string>)
    requires Within(s, id, pool) && After(crypto, s, step) == Some(next)
    ensures AcceptedAt(s, step, id) <= pool + IssuedAt(s, step, id)
    ensures Within(next, id, pool + IssuedAt(s, step, id) - AcceptedAt(s, step, id))
  {
    hide Within, After, InFlight;
    assert pool + multiset{} - multiset{} == pool && pool + multiset{} == pool;
    match step
    case Lock(op) => LockWithin(crypto, s, op, next, id, pool);
    case Persist(ok) =>
      PersistWithin(crypto, s, ok, next, id, pool);
      assert pool + IssuedAt(s, step, id) - multiset{} == pool + IssuedAt(s, step, id);
    case Publish => PublishWithin(crypto, s, next, id, pool);
    case _ => OtherWithin(crypto, s, step, next, id, pool);
  }

  lemma {:induction false} AcceptedFromPool(crypto: Crypto, s: State, steps: seq<Step>, id: Id, pool: multiset<string>)
    requires Within(s, id, pool)
    ensures AcceptedIn(crypto, s, steps, id) <= pool + IssuedIn(crypto, s, steps, id)
    decreases |steps|
  {
    hide Within, After, AcceptedAt, IssuedAt;
    if steps != [] && After(crypto, s, steps[0]).Some? {
      var next := After(crypto, s, steps[0]).value;
      var issued, accepted := IssuedAt(s, steps[0], id), AcceptedAt(s, steps[0], id);
      StepWithin(crypto, s, steps[0], next, id, pool);
      AcceptedFromPool(crypto, next, steps[1..], id, pool + issued - accepted);
    }
  }

  /** In every run whatsoever, with any requests dropped and any restarts, no recovery code of an account is accepted more
      often than it was issued. */
  lemma AcceptedWithinIssued(crypto: Crypto, id: Id, hash: string, mustChange: bool, now: Time, steps: seq<Step>, user: Id)
    ensures var s := Seeded(id, hash, mustChange, now);
            AcceptedIn(crypto, s, steps, user) <= IssuedIn(crypto, s, steps, user)
  {
    hide AcceptedIn, IssuedIn;
    var s := Seeded(id, hash, mustChange, now);
    AcceptedFromPool(crypto, s, steps, user, multiset{});
    assert multiset{} + IssuedIn(crypto, s, steps, user) == IssuedIn(crypto, s, steps, user);
  }

  // ----- a lost recovery code -----

  /** Enrol with one recovery code, spend it, and restart before the answer. */
  function LosingSteps(id: Id, hash: string, secret: string, code: string, target: string): seq<Step> {
    [Lock(Setup(id, secret))] + ([Persist(true)] + ([Publish]
    + ([Lock(Confirm(id, code, 0, [target]))] + ([Persist(true)] + ([Publish]
    + ([Lock(Spend(id, target))] + ([Persist(true)] + ([Restart(id, hash, false, 0)] + []))))))))
  }

  function Enrolled(id: Id, hash: string, twoFactor: TwoFactor): Users {
    map[id := StoredUser(id, "admin", [Admin], 0, None, hash, false, twoFactor)]
  }

  lemma SetupRuns(crypto: Crypto, id: Id, hash: string, secret: string, rest: seq<Step>)
    ensures var users := Enrolled(id, hash, TwoFactor(Some(secret), false, []));
            Run(crypto, Seeded(id, hash, false, 0), [Lock(Setup(id, secret))] + ([Persist(true)] + ([Publish] + rest)))
            == Run(crypto, State(users, users, Nobody, map[id := NewBooks([])]), rest)
  {
    hide Run;
    var s := Seeded(id, hash, false, 0);
    var users := Enrolled(id, hash, TwoFactor(Some(secret), false, []));
    var plan := Save(id, users[id]);
    RunToAnswer(crypto, s, Setup(id, secret), plan, rest);
    assert Apply(s.cache, plan) == users;
    assert BooksAfter(s.books, Setup(id, secret), plan) == map[id := NewBooks([])];
  }

  lemma ConfirmRuns(crypto: Crypto, id: Id, hash: string, secret: string, code: string, target: string, rest: seq<Step>)
    requires crypto.verifyTotp(secret, code, 0)
    ensures var before := Enrolled(id, hash, TwoFactor(Some(secret), false, []));
            var users := Enrolled(id, hash, TwoFactor(Some(secret), true, [target]));
            var confirm := Confirm(id, code, 0, [target]);
            Run(crypto, State(before, before, Nobody, map[id := NewBooks([])]),
                [Lock(confirm)] + ([Persist(true)] + ([Publish] + rest)))
            == Run(crypto, State(users, users, Nobody, map[id := NewBooks([target])]), rest)
  {
    hide Run;
    var before := Enrolled(id, hash, TwoFactor(Some(secret), false, []));
    var users := Enrolled(id, hash, TwoFactor(Some(secret), true, [target]));
    var s := State(before, before, Nobody, map[id := NewBooks([])]);
    var plan := Save(id, users[id]);
    var confirm := Confirm(id, code, 0, [target]);
    RunToAnswer(crypto, s, confirm, plan, rest);
    assert Apply(s.cache, plan) == users;
    assert BooksAfter(s.books, confirm, plan) == map[id := NewBooks([target])];
  }

  lemma SpendRuns(crypto: Crypto, id: Id, hash: string, users: Users, target: string)
    requires id in users && users[id].twoFactor.recoveryHashes == [target]
    ensures var steps := [Lock(Spend(id, target))] + ([Persist(true)] + ([Restart(id, hash, false, 0)] + []));
            var end := Run(crypto, State(users, users, Nobody, map[id := NewBooks([target])]), steps);
            end.Some? && end.value.books == map[id := Books(multiset{target}, multiset{}, multiset{target})]
  {
    hide Run;
    var s := State(users, users, Nobody, map[id := NewBooks([target])]);
    var plan := Save(id, users[id].(twoFactor := users[id].twoFactor.(recoveryHashes := [])));
    SpendOnly(users, id, target);
    RunToWrite(crypto, s, Spend(id, target), plan, [Restart(id, hash, false, 0)] + []);
    var written := State(users, Apply(users, plan), Persisted(Spend(id, target), plan), s.books);
    var end := State(written.store, written.store, Nobody, Lose(written.books, written.holder));
    assert id in written.store;
    RunStep(crypto, written, Restart(id, hash, false, 0), end, []);
    NoSteps(crypto, end);
    assert multiset([target]) == multiset{target} && multiset{} + multiset{target} == multiset{target};
    assert end.books[id] == Books(multiset{target}, multiset{}, multiset{target});
  }

  /** A reachable run in which a code is spent and nobody was let in for it. */
  lemma CodeLost(crypto: Crypto, id: Id, hash: string, secret: string, code: string, target: string)
    requires crypto.verifyTotp(secret, code, 0)
    ensures var end := Run(crypto, Seeded(id, hash, false, 0), LosingSteps(id, hash, secret, code, target));
            end.Some? && end.value.books == map[id := Books(multiset{target}, multiset{}, multiset{target})]
  {
    hide Run, Seeded;
    var spend := [Lock(Spend(id, target))] + ([Persist(true)] + ([Restart(id, hash, false, 0)] + []));
    SetupRuns(crypto, id, hash, secret, [Lock(Confirm(id, code, 0, [target]))] + ([Persist(true)] + ([Publish] + spend)));
    ConfirmRuns(crypto, id, hash, secret, code, target, spend);
    SpendRuns(crypto, id, hash, Enrolled(id, hash, TwoFactor(Some(secret), true, [target])), target);
  }

  lemma SpendOnly(users: Users, id: Id, target: string)
    requires id in users && users[id].twoFactor.recoveryHashes == [target]
    ensures PlanSpend(users, id, target)
         == Ok(Save(id, users[id].(twoFactor := users[id].twoFactor.(recoveryHashes := []))))
  {
    assert [target][..0] + [target][1..] == [];
  }
}

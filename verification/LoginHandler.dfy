/** The login endpoint: ask the throttle, refuse or sleep, verify the password, record the outcome.

    An attempt asks for its penalty when it arrives and records its outcome later; in between others may arrive and record
    theirs. A refused attempt does both at once. */
module LoginHandler {
  import opened Wrappers
  import opened LoginThrottle
  import opened Numbers
  import opened Text
  import Accounts

  const MAX_ENFORCED_SLEEP: Duration := 10 * SECOND

  /** What the authentication service answers: a session, a request for the second factor, or any other error. */
  datatype Verification = Session | SecondFactorMissing | Failure(error: AppError)

  /** One attempt: when it arrives, whose it is, how long it takes besides the enforced sleep, and what verification
      would answer. */
  datatype Attempt<Ip> = Attempt(at: Time, ip: Ip, username: string, busy: Duration, verification: Verification)

  datatype Kind = Refused | CheckFailed | Challenged | LoggedIn

  /** The log line of a handled attempt, with the name as it was typed; `at` is when its outcome was recorded. */
  datatype Entry<Ip> = Entry(ip: Ip, username: string, at: Time, slept: Duration, kind: Kind)

  function EventOf<Ip>(e: Entry<Ip>): seq<SystemEvent<Ip>> {
    match e.kind
    case Challenged => []
    case LoggedIn => [LoginSucceeded(e.ip, NormalizeUsername(e.username))]
    case _ => [LoginFailed(e.at, e.ip, NormalizeUsername(e.username))]
  }

  /** The throttle events of a log: refusals and failed checks count as failures, challenges leave no trace. */
  function Recorded<Ip>(log: seq<Entry<Ip>>): seq<SystemEvent<Ip>> {
    if log == [] then []
    else Recorded(log[..|log| - 1]) + EventOf(log[|log| - 1])
  }

  class LoginHandler<Ip(==, !new)> {
    const throttle: LoginThrottle<Ip>
    ghost var log: seq<Entry<Ip>>
    /** How many lines had been recorded when the attempt of each line asked for its penalty. */
    ghost var seen: seq<nat>

    ghost predicate Valid()
      reads this, throttle
    {
      throttle.Valid() && throttle.history == Recorded(log) && IsOverlappingRun(log, seen)
    }

    constructor ()
      ensures Valid() && log == [] && seen == [] && fresh(throttle)
    {
      throttle := new LoginThrottle();
      log, seen := [], [];
    }

    /** An arriving attempt is told its penalty, or refused and recorded at once. */
    method Arrive(a: Attempt<Ip>) returns (penalty: Option<Duration>)
      requires Valid()
      requires |log| > 0 ==> log[|log| - 1].at <= a.at
      modifies this, throttle
      ensures Valid()
      ensures penalty.Some? ==>
                && log == old(log) && seen == old(seen) && penalty.value <= MAX_ENFORCED_SLEEP
                && penalty.value == Owed(Recorded(log), a.ip, NormalizeUsername(a.username), a.at)
      ensures penalty.None? ==>
                && |log| == |old(log)| + 1 && log[..|old(log)|] == old(log) && seen == old(seen) + [|old(log)|]
                && Follows(old(log), a, log[|old(log)|]) && log[|old(log)|].kind == Refused
    {
      hide Recorded, Owed, NormalizeUsername, Ordered, InSequence, Handled, Buckets, IpEvents, AccountEvents;
      RecordedInOrder(log, a.at);
      var owed := throttle.PenaltyFor(a.at, a.ip, a.username);
      if owed <= MAX_ENFORCED_SLEEP {
        return Some(owed);
      }
      var _ := throttle.RecordFailure(a.at, a.ip, a.username);
      assert log[..|log|] == log;
      Append(a, |log|, Entry(a.ip, a.username, a.at, 0, Refused));
      return None;
    }

    /** After the sleep: verify, and record the outcome. `arrived` lines had been recorded when the attempt arrived. */
    method Conclude(a: Attempt<Ip>, penalty: Duration, ghost arrived: nat) returns (r: Result<(), AppError>)
      requires Valid() && arrived <= |log| && penalty <= MAX_ENFORCED_SLEEP
      requires penalty == Owed(Recorded(log[..arrived]), a.ip, NormalizeUsername(a.username), a.at)
      requires arrived > 0 ==> log[arrived - 1].at <= a.at
      requires arrived < |log| ==> a.at <= log[arrived].at
      requires |log| > 0 ==> log[|log| - 1].at <= a.at + penalty + a.busy
      modifies this, throttle
      ensures Valid()
      ensures |log| == |old(log)| + 1 && log[..|old(log)|] == old(log) && seen == old(seen) + [arrived]
      ensures Follows(old(log)[..arrived], a, log[|old(log)|]) && log[|old(log)|].kind != Refused
      ensures r.Ok? <==> log[|old(log)|].kind == LoggedIn
      ensures r == Err(TwoFactorRequired) <== log[|old(log)|].kind == Challenged
    {
      hide Recorded, Owed, NormalizeUsername, Ordered, InSequence, Handled, Buckets, IpEvents, AccountEvents;
      var done := a.at + penalty + a.busy;
      RecordedInOrder(log, done);
      match a.verification {
        case SecondFactorMissing =>
          Append(a, arrived, Entry(a.ip, a.username, done, penalty, Challenged));
          return Err(TwoFactorRequired);
        case Session =>
          throttle.RecordSuccess(a.ip, a.username);
          Append(a, arrived, Entry(a.ip, a.username, done, penalty, LoggedIn));
          return Ok(());
        case Failure(error) =>
          var retryAfter := throttle.RecordFailure(done, a.ip, a.username);
          Append(a, arrived, Entry(a.ip, a.username, done, penalty, CheckFailed));
          return Err(if retryAfter > MAX_ENFORCED_SLEEP then TooManyRequests else error);
      }
    }

    /** An attempt that nothing overlaps. */
    method Login(a: Attempt<Ip>) returns (r: Result<(), AppError>)
      requires Valid()
      requires |log| > 0 ==> log[|log| - 1].at <= a.at
      modifies this, throttle
      ensures Valid()
      ensures |log| == |old(log)| + 1 && log[..|old(log)|] == old(log) && seen == old(seen) + [|old(log)|]
      ensures Follows(old(log), a, log[|old(log)|])
      ensures r.Ok? <==> log[|old(log)|].kind == LoggedIn
      ensures log[|old(log)|].kind == Refused ==> r == Err(TooManyRequests)
      ensures log[|old(log)|].kind == Challenged ==> r == Err(TwoFactorRequired)
    {
      hide *;
      var penalty := Arrive(a);
      if penalty.None? {
        return Err(TooManyRequests);
      }
      assert log[..|log|] == log;
      r := Conclude(a, penalty.value, |log|);
    }

    ghost method Append(a: Attempt<Ip>, arrived: nat, e: Entry<Ip>)
      requires IsOverlappingRun(log, seen) && arrived <= |log| && Follows(log[..arrived], a, e)
      requires e.kind == Refused ==> arrived == |log|
      requires arrived > 0 ==> log[arrived - 1].at <= a.at
      requires arrived < |log| ==> a.at <= log[arrived].at
      requires |log| > 0 ==> log[|log| - 1].at <= e.at
      modifies this`log, this`seen
      ensures log == old(log) + [e] && seen == old(seen) + [arrived] && IsOverlappingRun(log, seen)
      ensures log[..|old(log)|] == old(log) && log[|old(log)|] == e
      ensures Recorded(log) == Recorded(old(log)) + EventOf(e)
    {
      hide IsOverlappingRun, Follows, Recorded;
      RunGrows(log, seen, a, arrived, e);
      RecordedPush(log, e);
      log, seen := log + [e], seen + [arrived];
      assert log[..|old(log)|] == old(log);
    }
  }

  /** Outcomes are recorded in time order. */
  ghost predicate InSequence<Ip>(log: seq<Entry<Ip>>) {
    forall i, j :: 0 <= i < j < |log| ==> log[i].at <= log[j].at
  }

  /** `e` is the log line the handler adds for attempt `a` after the attempts of `log`. */
  ghost predicate Follows<Ip>(log: seq<Entry<Ip>>, a: Attempt<Ip>, e: Entry<Ip>) {
    var penalty := Owed(Recorded(log), a.ip, NormalizeUsername(a.username), a.at);
    && e.ip == a.ip && e.username == a.username
    && if penalty > MAX_ENFORCED_SLEEP then e == Entry(a.ip, a.username, a.at, 0, Refused)
       else
         && e.slept == penalty && e.at == a.at + penalty + a.busy
         && e.kind == match a.verification
                      case SecondFactorMissing => Challenged
                      case Session => LoggedIn
                      case Failure(_) => CheckFailed
  }

  lemma {:induction false} RecordedInOrder<Ip>(log: seq<Entry<Ip>>, now: Time)
    requires InSequence(log)
    requires |log| > 0 ==> log[|log| - 1].at <= now
    ensures Ordered(Recorded(log), now)
  {
    if log != [] {
      RecordedInOrder(log[..|log| - 1], log[|log| - 1].at);
    }
  }

  // ----- spellings of a name -----

  /** Two names share a bucket exactly when, trimmed, they name the same account. */
  lemma SpellingsShareBucket(u: string, v: string)
    ensures NormalizeUsername(u) == NormalizeUsername(v) <==> Accounts.SameName(Trim(u), Trim(v))
  {
  }

  /** However its name is typed, an account owes one penalty. */
  lemma OneAccountOnePenalty<Ip>(h: seq<SystemEvent<Ip>>, users: Accounts.Users, id: Id, u: string, v: string, ip: Ip, now: Time)
    requires id in users
    requires Accounts.SameName(users[id].username, Trim(u)) && Accounts.SameName(users[id].username, Trim(v))
    ensures Owed(h, ip, NormalizeUsername(u), now) == Owed(h, ip, NormalizeUsername(v), now)
  {
    SpellingsShareBucket(u, v);
  }

  // ----- whole runs -----

  /** Line `i` was recorded for an attempt that asked for its penalty after the first `n` lines and before the next. */
  ghost predicate Handled<Ip(!new)>(log: seq<Entry<Ip>>, i: int, n: nat)
    requires 0 <= i < |log|
  {
    && n <= i && (log[i].kind == Refused ==> n == i)
    && exists a :: Follows(log[..n], a, log[i]) && (n > 0 ==> log[n - 1].at <= a.at) && (n < i ==> a.at <= log[n].at)
  }

  /** A log of attempts that may overlap. */
  ghost predicate IsOverlappingRun<Ip(!new)>(log: seq<Entry<Ip>>, seen: seq<nat>) {
    |seen| == |log| && InSequence(log) && forall i :: 0 <= i < |log| ==> Handled(log, i, seen[i])
  }

  /** A log of attempts handled one at a time: each asks for its penalty after all before it were recorded. */
  ghost predicate IsRun<Ip(!new)>(log: seq<Entry<Ip>>) {
    InSequence(log) && forall i :: 0 <= i < |log| ==> Handled(log, i, i)
  }

  lemma RecordedPush<Ip>(log: seq<Entry<Ip>>, e: Entry<Ip>)
    ensures Recorded(log + [e]) == Recorded(log) + EventOf(e)
  {
    assert (log + [e])[..|log|] == log;
  }

  /** Recording one more attempt continues the run. */
  lemma RunGrows<Ip(!new)>(log: seq<Entry<Ip>>, seen: seq<nat>, a: Attempt<Ip>, n: nat, e: Entry<Ip>)
    requires IsOverlappingRun(log, seen) && n <= |log| && Follows(log[..n], a, e)
    requires e.kind == Refused ==> n == |log|
    requires (n > 0 ==> log[n - 1].at <= a.at) && (n < |log| ==> a.at <= log[n].at)
    requires |log| > 0 ==> log[|log| - 1].at <= e.at
    ensures IsOverlappingRun(log + [e], seen + [n])
  {
    hide Follows;
    var after, seenAfter := log + [e], seen + [n];
    forall i | 0 <= i < |after|
      ensures Handled(after, i, seenAfter[i])
    {
      var m := seenAfter[i];
      if i < |log| {
        assert Handled(log, i, seen[i]);
        var b :| Follows(log[..m], b, log[i]) && (m > 0 ==> log[m - 1].at <= b.at) && (m < i ==> b.at <= log[m].at);
        assert after[..m] == log[..m];
        assert Follows(after[..m], b, after[i]);
      } else {
        assert after[..n] == log[..n];
        assert Follows(after[..n], a, after[i]);
      }
    }
  }

  /** No attempt is ever made to sleep more than eight seconds. */
  lemma SleepBounded<Ip>(log: seq<Entry<Ip>>, a: Attempt<Ip>, e: Entry<Ip>)
    requires Follows(log, a, e)
    ensures e.slept <= 8 * SECOND
  {
    var h := Recorded(log);
    DelayValues(Streak(HistoryOf(IpEvents(h), a.ip)));
    DelayValues(Streak(HistoryOf(AccountEvents(h), NormalizeUsername(e.username))));
  }

  lemma DelayValues(n: nat)
    ensures RequiredDelay(n) <= MAX_ENFORCED_SLEEP <==> n <= 4
    ensures n <= 4 ==> RequiredDelay(n) <= 8 * SECOND
  {
    assert Pow2(0) == 1 && Pow2(1) == 2 && Pow2(2) == 4 && Pow2(3) == 8 && Pow2(4) == 16 && Pow2(5) == 32 && Pow2(6) == 64;
  }

  /** The log lines of one account, by any spelling of its name, or of one address. */
  datatype Subject<Ip> = Account(name: string) | Address(ip: Ip)

  predicate Concerns<Ip(==)>(s: Subject<Ip>, e: Entry<Ip>) {
    match s
    case Account(name) => Accounts.SameName(Trim(e.username), Trim(name))
    case Address(ip) => e.ip == ip
  }

  /** The throttle history of a subject. */
  function SubjectHistory<Ip(==)>(log: seq<Entry<Ip>>, s: Subject<Ip>): seq<Event> {
    match s
    case Account(name) => HistoryOf(AccountEvents(Recorded(log)), NormalizeUsername(name))
    case Address(ip) => HistoryOf(IpEvents(Recorded(log)), ip)
  }

  /** Lines from `i` up to `j` about `s` in which the password was checked and found wrong. */
  function FailedChecks<Ip(==)>(log: seq<Entry<Ip>>, s: Subject<Ip>, i: nat, j: nat): nat
    requires i <= j <= |log|
    decreases j
  {
    if i == j then 0
    else FailedChecks(log, s, i, j - 1) + if Concerns(s, log[j - 1]) && log[j - 1].kind == CheckFailed then 1 else 0
  }

  /** What a line adds to the history of a subject. */
  function EventFor<Ip(==)>(s: Subject<Ip>, e: Entry<Ip>): seq<Event> {
    if !Concerns(s, e) || e.kind == Challenged then [] else if e.kind == LoggedIn then [Succeeded] else [Failed(e.at)]
  }

  /** The events of `s` recorded from line `i` up to `j`. */
  function EventsOf<Ip(==)>(log: seq<Entry<Ip>>, s: Subject<Ip>, i: nat, j: nat): seq<Event>
    requires i <= j <= |log|
    decreases j
  {
    if i == j then []
    else EventsOf(log, s, i, j - 1) + EventFor(s, log[j - 1])
  }

  /** Between lines `i` and `j`, `s` never logged in and never went quiet for more than the window. */
  ghost predicate Uninterrupted<Ip>(log: seq<Entry<Ip>>, s: Subject<Ip>, i: nat, j: nat)
    requires i <= j <= |log|
  {
    var h := EventsOf(log, s, i, j);
    Chain(h, |h|)
  }

  lemma {:induction false} HistoryPush<K>(h: seq<KeyEvent<K>>, e: KeyEvent<K>, k: K)
    ensures HistoryOf(h + [e], k)
         == HistoryOf(h, k) + if e.key != k then [] else if e.KeyFailed? then [Failed(e.at)] else [Succeeded]
  {
    assert (h + [e])[..|h|] == h;
  }

  /** One more line adds its own event to the history of the subject. */
  lemma SubjectHistoryStep<Ip>(log: seq<Entry<Ip>>, s: Subject<Ip>)
    requires log != []
    ensures SubjectHistory(log, s) == SubjectHistory(log[..|log| - 1], s) + EventFor(s, log[|log| - 1])
  {
    var before, e := Recorded(log[..|log| - 1]), log[|log| - 1];
    assert Recorded(log) == before + EventOf(e);
    hide EventOf, EventFor, Recorded, HistoryOf, NormalizeUsername;
    match s
    case Account(name) =>
      AccountStep(before, e, name);
    case Address(ip) =>
      AddressStep(before, e, ip);
  }

  lemma AccountStep<Ip>(h: seq<SystemEvent<Ip>>, e: Entry<Ip>, name: string)
    ensures HistoryOf(AccountEvents(h + EventOf(e)), NormalizeUsername(name))
         == HistoryOf(AccountEvents(h), NormalizeUsername(name)) + EventFor(Account(name), e)
  {
    hide NormalizeUsername, Accounts.SameName, Trim, HistoryOf;
    SpellingsShareBucket(e.username, name);
    if e.kind == Challenged {
      assert h + [] == h;
    } else {
      var account := NormalizeUsername(e.username);
      var last := if e.kind == LoggedIn then KeySucceeded(account) else KeyFailed(account, e.at);
      assert AccountEvents(h + EventOf(e)) == AccountEvents(h) + [last];
      HistoryPush(AccountEvents(h), last, NormalizeUsername(name));
    }
  }

  lemma AddressStep<Ip>(h: seq<SystemEvent<Ip>>, e: Entry<Ip>, ip: Ip)
    ensures HistoryOf(IpEvents(h + EventOf(e)), ip) == HistoryOf(IpEvents(h), ip) + EventFor(Address(ip), e)
  {
    hide NormalizeUsername, HistoryOf;
    if e.kind == Challenged {
      assert h + [] == h;
    } else {
      var last := if e.kind == LoggedIn then KeySucceeded(e.ip) else KeyFailed(e.ip, e.at);
      assert IpEvents(h + EventOf(e)) == IpEvents(h) + [last];
      HistoryPush(IpEvents(h), last, ip);
    }
  }

  /** The events of a window are the last ones of the history. */
  lemma {:induction false} WindowIsSuffix<Ip>(log: seq<Entry<Ip>>, s: Subject<Ip>, i: nat, j: nat)
    requires i <= j <= |log|
    ensures SubjectHistory(log[..j], s) == SubjectHistory(log[..i], s) + EventsOf(log, s, i, j)
    decreases j
  {
    hide SubjectHistory, EventFor;
    if i < j {
      WindowIsSuffix(log, s, i, j - 1);
      SubjectHistoryStep(log[..j], s);
      assert log[..j][..j - 1] == log[..j - 1];
    }
  }

  /** What a subject owes is part of what the attempt owes. */
  lemma SubjectOwes<Ip>(log: seq<Entry<Ip>>, s: Subject<Ip>, a: Attempt<Ip>, e: Entry<Ip>)
    requires Follows(log, a, e) && Concerns(s, e)
    ensures PenaltyAfter(SubjectHistory(log, s), a.at) <= Owed(Recorded(log), a.ip, NormalizeUsername(a.username), a.at)
    ensures e.kind != Refused ==> PenaltyAfter(SubjectHistory(log, s), a.at) <= MAX_ENFORCED_SLEEP
    ensures a.at <= e.at
  {
    hide PenaltyAfter, HistoryOf, Recorded, NormalizeUsername, Accounts.SameName, Trim;
    if s.Account? {
      SpellingsShareBucket(e.username, s.name);
    }
  }

  /** A failure recorded after a tolerable penalty makes a streak of at most five. */
  lemma StreakAfterCheck(h: seq<Event>, at: Time, recorded: Time)
    requires at <= recorded
    requires PenaltyAfter(h, at) <= MAX_ENFORCED_SLEEP
    ensures Streak(h + [Failed(recorded)]) <= 5
  {
    var after := h + [Failed(recorded)];
    assert after[..|after| - 1] == h;
    DelayValues(Streak(h));
  }

  lemma InOrderFrom<Ip>(log: seq<Entry<Ip>>, n: nat, m: nat)
    requires InSequence(log) && n <= m < |log|
    ensures log[n].at <= log[m].at
  {
  }

  /** When a password is checked, the first failure of the subject recorded after the attempt asked for its penalty makes a
      streak of at most five. */
  lemma CheckedEarly<Ip(!new)>(log: seq<Entry<Ip>>, s: Subject<Ip>, p: nat, n: nat, m: nat)
    requires InSequence(log) && n <= m <= p < |log| && Handled(log, p, n)
    requires Concerns(s, log[p]) && log[p].kind == CheckFailed
    requires EventsOf(log, s, n, m) == [] && EventsOf(log, s, n, m + 1) == [Failed(log[m].at)]
    ensures Streak(SubjectHistory(log[..m + 1], s)) <= 5
  {
    hide SubjectHistory, PenaltyAfter, Streak, Follows, EventsOf, Owed, Recorded, InSequence, Concerns, NormalizeUsername;
    var a :| Follows(log[..n], a, log[p]) && (n > 0 ==> log[n - 1].at <= a.at) && (n < p ==> a.at <= log[n].at);
    SubjectOwes(log[..n], s, a, log[p]);
    InOrderFrom(log, n, m);
    WindowIsSuffix(log, s, n, m + 1);
    StreakAfterCheck(SubjectHistory(log[..n], s), a.at, log[m].at);
  }

  /** The longest chain is at least any chain. */
  lemma ChainBelowStreak(h: seq<Event>, n: nat)
    requires Chain(h, n)
    ensures n <= Streak(h)
  {
    StreakIsLongest(h);
  }

  lemma SuffixChain(before: seq<Event>, window: seq<Event>)
    requires Chain(window, |window|)
    ensures Chain(before + window, |window|)
  {
    var h := before + window;
    forall i | |before| < i < |h|
      ensures Since(h[i].at, h[i - 1].at) <= QUIET_WINDOW
    {
      assert h[i] == window[i - |before|] && h[i - 1] == window[i - |before| - 1];
    }
  }

  lemma PrefixChain(shorter: seq<Event>, window: seq<Event>)
    requires shorter <= window && Chain(window, |window|)
    ensures Chain(shorter, |shorter|)
  {
  }

  lemma {:induction false} ChecksBelowEvents<Ip>(log: seq<Entry<Ip>>, s: Subject<Ip>, i: nat, j: nat)
    requires i <= j <= |log|
    ensures FailedChecks(log, s, i, j) <= |EventsOf(log, s, i, j)|
    decreases j
  {
    hide Concerns;
    if i < j {
      ChecksBelowEvents(log, s, i, j - 1);
    }
  }

  /** The first event of the subject from line `n` on, given that line `p` has one. */
  lemma FirstEvent<Ip>(log: seq<Entry<Ip>>, s: Subject<Ip>, n: nat, p: nat) returns (m: nat)
    requires n <= p < |log| && Concerns(s, log[p]) && log[p].kind != Challenged
    ensures n <= m <= p && EventsOf(log, s, n, m) == [] && |EventsOf(log, s, n, m + 1)| == 1
    ensures Concerns(s, log[m]) && log[m].kind != Challenged
    decreases p
  {
    hide Concerns;
    m := p;
    if EventsOf(log, s, n, p) != [] {
      var k := LastEvent(log, s, n, p);
      m := FirstEvent(log, s, n, k);
    }
  }

  lemma LastEvent<Ip>(log: seq<Entry<Ip>>, s: Subject<Ip>, n: nat, p: nat) returns (k: nat)
    requires n <= p <= |log| && EventsOf(log, s, n, p) != []
    ensures n <= k < p && Concerns(s, log[k]) && log[k].kind != Challenged
    decreases p
  {
    hide Concerns;
    k := p - 1;
    if !(Concerns(s, log[k]) && log[k].kind != Challenged) {
      k := LastEvent(log, s, n, p - 1);
    }
  }

  lemma {:induction false} EventsSplit<Ip>(log: seq<Entry<Ip>>, s: Subject<Ip>, i: nat, n: nat, j: nat)
    requires i <= n <= j <= |log|
    ensures EventsOf(log, s, i, j) == EventsOf(log, s, i, n) + EventsOf(log, s, n, j)
    ensures FailedChecks(log, s, i, j) == FailedChecks(log, s, i, n) + FailedChecks(log, s, n, j)
    decreases j
  {
    hide Concerns, EventFor;
    if n < j {
      EventsSplit(log, s, i, n, j - 1);
    }
  }

  /** A window cut short is uninterrupted as well. */
  lemma ShortWindow<Ip>(log: seq<Entry<Ip>>, s: Subject<Ip>, i: nat, m: nat, j: nat)
    requires i <= m <= j <= |log| && Uninterrupted(log, s, i, j)
    ensures Uninterrupted(log, s, i, m)
    ensures forall k :: 0 <= k < |EventsOf(log, s, i, m)| ==> EventsOf(log, s, i, m)[k].Failed?
  {
    hide EventsOf;
    EventsSplit(log, s, i, m, j);
    PrefixChain(EventsOf(log, s, i, m), EventsOf(log, s, i, j));
  }

  /** An uninterrupted window is no longer than the streak at its end. */
  lemma WindowBelowStreak<Ip>(log: seq<Entry<Ip>>, s: Subject<Ip>, i: nat, m: nat)
    requires i <= m <= |log| && Uninterrupted(log, s, i, m)
    ensures |EventsOf(log, s, i, m)| <= Streak(SubjectHistory(log[..m], s))
  {
    hide EventsOf, Streak, SubjectHistory, Chain;
    var window := EventsOf(log, s, i, m);
    WindowIsSuffix(log, s, i, m);
    SuffixChain(SubjectHistory(log[..i], s), window);
    ChainBelowStreak(SubjectHistory(log[..m], s), |window|);
  }

  lemma LastOf<Ip>(log: seq<Entry<Ip>>, s: Subject<Ip>, n: nat, m: nat)
    requires n <= m < |log| && EventsOf(log, s, n, m) == [] && |EventsOf(log, s, n, m + 1)| == 1
    requires EventsOf(log, s, n, m + 1)[0].Failed?
    ensures EventsOf(log, s, n, m + 1) == [Failed(log[m].at)]
  {
  }

  /** A checked attempt has at most four failed checks of the window before it asked for its penalty. */
  lemma FewBefore<Ip(!new)>(log: seq<Entry<Ip>>, s: Subject<Ip>, i: nat, n: nat, p: nat)
    requires InSequence(log) && i <= n <= p < |log| && Handled(log, p, n)
    requires Concerns(s, log[p]) && log[p].kind == CheckFailed
    requires Uninterrupted(log, s, i, p + 1)
    ensures FailedChecks(log, s, i, n) <= 4
  {
    hide SubjectHistory, Streak, InSequence, Handled, EventsOf, Uninterrupted, FailedChecks, Concerns;
    var m := FirstEvent(log, s, n, p);
    EventsSplit(log, s, i, n, m + 1);
    ShortWindow(log, s, i, m + 1, p + 1);
    var window := EventsOf(log, s, i, m + 1);
    assert window[|window| - 1] == EventsOf(log, s, n, m + 1)[0];
    LastOf(log, s, n, m);
    CheckedEarly(log, s, p, n, m);
    WindowBelowStreak(log, s, i, m + 1);
    ChecksBelowEvents(log, s, i, n);
  }

  /** The failed checks about the subject that were recorded while the attempt of line `p` was under way. */
  function Overlapped<Ip(==)>(log: seq<Entry<Ip>>, seen: seq<nat>, s: Subject<Ip>, p: nat): nat
    requires p < |log| && |seen| == |log| && seen[p] <= p
  {
    FailedChecks(log, s, seen[p], p)
  }

  ghost predicate OverlapWithin<Ip(!new)>(log: seq<Entry<Ip>>, seen: seq<nat>, s: Subject<Ip>, k: nat)
    requires IsOverlappingRun(log, seen)
  {
    forall p: nat :: p < |log| ==> Handled(log, p, seen[p]) && Overlapped(log, seen, s, p) <= k
  }

  /** Between a success or a quiet gap, the attempts on one account, or from one address, that reach the password check and
      fail are at most five more than those recorded while any one attempt was under way. */
  lemma {:induction false} AtMostFiveAndOverlap<Ip(!new)>(log: seq<Entry<Ip>>, seen: seq<nat>, s: Subject<Ip>, i: nat, j: nat,
                                                          k: nat)
    requires IsOverlappingRun(log, seen) && i <= j <= |log|
    requires Uninterrupted(log, s, i, j) && OverlapWithin(log, seen, s, k)
    ensures FailedChecks(log, s, i, j) <= 5 + k
    decreases j
  {
    hide Chain, Streak, InSequence, Concerns;
    if i < j {
      var p := j - 1;
      if Concerns(s, log[p]) && log[p].kind == CheckFailed {
        var n := seen[p];
        assert Handled(log, p, n) && Overlapped(log, seen, s, p) <= k;
        if i <= n {
          EventsSplit(log, s, i, n, p);
          FewBefore(log, s, i, n, p);
        } else {
          EventsSplit(log, s, n, i, p);
        }
      } else {
        PrefixChain(EventsOf(log, s, i, p), EventsOf(log, s, i, j));
        AtMostFiveAndOverlap(log, seen, s, i, p, k);
      }
    }
  }

  /** Between a success or a quiet gap, when attempts do not overlap, at most five on one account, and at most five from one
      address, reach the password check and fail. */
  lemma AtMostFiveChecks<Ip(!new)>(log: seq<Entry<Ip>>, s: Subject<Ip>, i: nat, j: nat)
    requires IsRun(log) && i <= j <= |log|
    requires Uninterrupted(log, s, i, j)
    ensures FailedChecks(log, s, i, j) <= 5
  {
    hide Uninterrupted, InSequence, Handled;
    var seen := seq(|log|, k requires 0 <= k < |log| => k);
    assert forall p: nat :: p < |log| ==> Handled(log, p, p) && seen[p] == p;
    AtMostFiveAndOverlap(log, seen, s, i, j, 0);
  }

  // ----- attempts that arrive together -----

  /** `n` attempts that arrive together and fail. */
  function Burst<Ip>(a: Attempt<Ip>, n: nat): (log: seq<Entry<Ip>>)
    ensures |log| == n
  {
    seq(n, k => Entry(a.ip, a.username, a.at + a.busy, 0, CheckFailed))
  }

  /** Overlapping attempts all find no penalty: any number of them, arriving before the first outcome is recorded, is checked. */
  lemma BurstIsChecked<Ip(!new)>(a: Attempt<Ip>, n: nat)
    requires a.verification.Failure?
    ensures var log := Burst(a, n);
            var s: Subject<Ip> := Account(a.username);
            && IsOverlappingRun(log, seq(n, k => 0))
            && Uninterrupted(log, s, 0, n) && FailedChecks(log, s, 0, n) == n
  {
    hide NormalizeUsername, Accounts.SameName, Trim;
    var log := Burst(a, n);
    var seen := seq(n, k => 0);
    var s: Subject<Ip> := Account(a.username);
    forall i | 0 <= i < n
      ensures Handled(log, i, seen[i])
    {
      assert log[..0] == [];
      NothingOwed(a);
      assert Follows(log[..0], a, log[i]);
    }
    hide Handled, Follows;
    BurstEvents(a, n, n);
  }

  lemma NothingOwed<Ip>(a: Attempt<Ip>)
    ensures Owed(Recorded<Ip>([]), a.ip, NormalizeUsername(a.username), a.at) == 0
  {
  }

  lemma {:induction false} BurstEvents<Ip>(a: Attempt<Ip>, n: nat, j: nat)
    requires j <= n
    ensures var log, s := Burst(a, n), Account(a.username);
            && EventsOf(log, s, 0, j) == seq(j, k => Failed(a.at + a.busy))
            && FailedChecks(log, s, 0, j) == j
    decreases j
  {
    hide NormalizeUsername, Trim, ToAsciiLowercase;
    if j > 0 {
      BurstEvents(a, n, j - 1);
      assert seq(j, k => Failed(a.at + a.busy)) == seq(j - 1, k => Failed(a.at + a.busy)) + [Failed(a.at + a.busy)];
    }
  }

  /** Once the streak has reached five, every attempt that arrives before a quiet window has passed is refused without
      a password check. */
  lemma RefusedAfterFive<Ip>(log: seq<Entry<Ip>>, s: Subject<Ip>, a: Attempt<Ip>, e: Entry<Ip>)
    requires Follows(log, a, e) && Concerns(s, e)
    requires var h := SubjectHistory(log, s);
             Streak(h) >= 5 && Since(a.at, h[|h| - 1].at) <= 15 * 60 * SECOND
    ensures e.kind == Refused
  {
    var h := SubjectHistory(log, s);
    DelayValues(Streak(h));
    assert h != [] && h[|h| - 1].Failed?;
    assert PenaltyAfter(h, a.at) == RequiredDelay(Streak(h));
    hide SubjectHistory, Streak, RequiredDelay, PenaltyAfter;
    SubjectOwes(log, s, a, e);
  }
}

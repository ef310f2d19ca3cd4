/** Login throttling: exponential backoff per source address and per account name.

    Time is in nanoseconds and never runs backwards. The service keeps one bucket per key and evicts lazily; what it is
    meant to compute is a fold over the whole history of events of that key. */
module LoginThrottle {
  import opened Wrappers
  import opened Text
  import opened Numbers
  import opened Collections

  type Duration = nat

  const MAX_DELAY: Duration := 60 * SECOND

  const QUIET_WINDOW: Duration := 15 * 60 * SECOND

  const MAX_ENTRIES := 10_000

  /** `Instant::duration_since`, which saturates at zero. */
  function Since(now: Time, earlier: Time): Duration {
    if now < earlier then 0 else now - earlier
  }

  /** 1s, 2s, 4s, ..., the shift clamped at six and the seconds at sixty. */
  function RequiredDelay(failures: nat): Duration {
    var shift := Min(if failures == 0 then 0 else failures - 1, 6);
    Min(Pow2(shift) * SECOND, MAX_DELAY)
  }

  // ----- buckets -----

  datatype Bucket = Bucket(failures: nat, lastFailure: Time) {
    predicate Live(now: Time) {
      Since(now, lastFailure) <= QUIET_WINDOW
    }

    function Fail(now: Time): Bucket {
      var kept := if Since(now, lastFailure) > QUIET_WINDOW then 0 else failures;
      Bucket(Min(kept + 1, U32_MAX), now)
    }

    function CurrentDelay(now: Time): Duration {
      if Since(now, lastFailure) > QUIET_WINDOW then 0 else RequiredDelay(failures)
    }
  }

  function NormalizeUsername(username: string): string {
    ToAsciiLowercase(Trim(username))
  }

  /** One map of buckets, as the service updates it. */
  function Evicted<K>(m: map<K, Bucket>, now: Time): map<K, Bucket> {
    map k | k in m && m[k].Live(now) :: m[k]
  }

  function MakeRoom<K>(m: map<K, Bucket>, k: K, now: Time): map<K, Bucket> {
    if |m| >= MAX_ENTRIES && k !in m then Evicted(m, now) else m
  }

  function FailIn<K>(m: map<K, Bucket>, k: K, now: Time): map<K, Bucket> {
    m[k := if k in m then m[k].Fail(now) else Bucket(1, now)]
  }

  function Delay<K>(m: map<K, Bucket>, k: K, now: Time): Duration {
    if k in m then m[k].CurrentDelay(now) else 0
  }

  // ----- the history of one key -----

  /** What happened to one key: a failure at a time, or a success. */
  datatype Event = Failed(at: Time) | Succeeded

  /** The last `n` events are failures, each at most fifteen minutes after the one before it. */
  ghost predicate Chain(h: seq<Event>, n: nat) {
    && n <= |h|
    && (forall i :: |h| - n <= i < |h| ==> h[i].Failed?)
    && (forall i :: |h| - n < i < |h| ==> Since(h[i].at, h[i - 1].at) <= 15 * 60 * SECOND)
  }

  /** The streak: the longest such chain. */
  ghost predicate IsStreak(h: seq<Event>, n: nat) {
    Chain(h, n) && forall m :: m > n ==> !Chain(h, m)
  }

  /** What a caller is owed after history `h`, from the whole history: nothing when there is no streak or it has gone
      quiet, else 2^(n-1) seconds up to a minute. */
  ghost predicate IsPenalty(h: seq<Event>, now: Time, penalty: Duration) {
    exists n: nat ::
      && IsStreak(h, n)
      && penalty == if n == 0 || Since(now, h[|h| - 1].at) > 15 * 60 * SECOND then 0
                    else if n >= 7 then 60 * SECOND else Pow2(n - 1) * SECOND
  }

  function Streak(h: seq<Event>): nat {
    if h == [] then 0
    else
      match h[|h| - 1]
      case Succeeded => 0
      case Failed(at) =>
        var before := h[..|h| - 1];
        if before != [] && before[|before| - 1].Failed? && Since(at, before[|before| - 1].at) <= QUIET_WINDOW
        then Streak(before) + 1
        else 1
  }

  /** One more failure extends a chain exactly when it follows a failure closely enough. */
  lemma ChainStep(h: seq<Event>, m: nat)
    requires h != [] && h[|h| - 1].Failed? && 2 <= m
    ensures var before := h[..|h| - 1];
            Chain(h, m) <==> (Chain(before, m - 1) && before[|before| - 1].Failed?
                              && Since(h[|h| - 1].at, before[|before| - 1].at) <= QUIET_WINDOW)
  {
  }

  lemma {:induction false} StreakIsLongest(h: seq<Event>)
    ensures IsStreak(h, Streak(h))
  {
    if h != [] && h[|h| - 1].Failed? {
      StreakIsLongest(h[..|h| - 1]);
      forall m: nat | 2 <= m
        ensures Chain(h, m) <==> m <= Streak(h)
      {
        ChainStep(h, m);
        ChainShorter(h[..|h| - 1], Streak(h[..|h| - 1]), m - 1);
      }
    }
  }

  lemma ChainShorter(h: seq<Event>, n: nat, m: nat)
    ensures Chain(h, n) && m <= n ==> Chain(h, m)
  {
  }

  /** The penalty after a history, by the streak. */
  function PenaltyAfter(h: seq<Event>, now: Time): Duration {
    if h == [] || !h[|h| - 1].Failed? || Since(now, h[|h| - 1].at) > QUIET_WINDOW then 0
    else RequiredDelay(Streak(h))
  }

  lemma PenaltyMeaning(h: seq<Event>, now: Time)
    ensures IsPenalty(h, now, PenaltyAfter(h, now))
  {
    StreakIsLongest(h);
    var n := Streak(h);
    if n >= 7 {
      assert Pow2(6) == 64;
    } else if n > 0 {
      assert Pow2(0) == 1 && Pow2(1) == 2 && Pow2(2) == 4 && Pow2(3) == 8 && Pow2(4) == 16 && Pow2(5) == 32;
    }
  }

  // ----- one map of buckets over the history of all its keys -----

  datatype KeyEvent<K> = KeyFailed(key: K, at: Time) | KeySucceeded(key: K)

  /** Failures happen in time order, none after `now`. */
  ghost predicate InOrder<K>(h: seq<KeyEvent<K>>, now: Time) {
    && (forall i :: 0 <= i < |h| && h[i].KeyFailed? ==> h[i].at <= now)
    && (forall i, j :: 0 <= i < j < |h| && h[i].KeyFailed? && h[j].KeyFailed? ==> h[i].at <= h[j].at)
  }

  function HistoryOf<K(==)>(h: seq<KeyEvent<K>>, k: K): seq<Event> {
    if h == [] then []
    else
      var last := h[|h| - 1];
      HistoryOf(h[..|h| - 1], k)
      + if last.key != k then [] else if last.KeyFailed? then [Failed(last.at)] else [Succeeded]
  }

  /** The buckets after a history; `evict` tells whether full maps are swept. */
  function Buckets<K(==)>(h: seq<KeyEvent<K>>, evict: bool): map<K, Bucket> {
    if h == [] then map[]
    else
      var m := Buckets(h[..|h| - 1], evict);
      match h[|h| - 1]
      case KeySucceeded(k) => m - {k}
      case KeyFailed(k, at) => FailIn(if evict then MakeRoom(m, k, at) else m, k, at)
  }

  /** A bucket holds the last failure and the saturated streak; a missing bucket means nothing is owed any more. */
  ghost predicate Represents<K>(m: map<K, Bucket>, k: K, h: seq<Event>, now: Time) {
    if k in m then
      && h != [] && h[|h| - 1] == Failed(m[k].lastFailure)
      && m[k].failures == Min(Streak(h), U32_MAX)
      && m[k].lastFailure <= now
    else
      h == [] || !h[|h| - 1].Failed? || Since(now, h[|h| - 1].at) > QUIET_WINDOW
  }

  lemma RoomRepresents<K>(m: map<K, Bucket>, added: K, k: K, h: seq<Event>, now: Time)
    requires Represents(m, k, h, now)
    ensures Represents(MakeRoom(m, added, now), k, h, now)
  {
    hide Streak;
  }

  lemma FailRepresents<K>(m: map<K, Bucket>, failed: K, k: K, h: seq<Event>, at: Time, now: Time)
    requires Represents(m, k, h, at) && at <= now
    ensures Represents(FailIn(m, failed, at), k, if failed == k then h + [Failed(at)] else h, now)
  {
    if failed == k {
      var after := h + [Failed(at)];
      assert after[..|after| - 1] == h;
    } else {
      hide Streak;
    }
  }

  lemma SucceedRepresents<K>(m: map<K, Bucket>, done: K, k: K, h: seq<Event>, now: Time)
    requires Represents(m, k, h, now)
    ensures Represents(m - {done}, k, if done == k then h + [Succeeded] else h, now)
  {
    hide Streak;
  }

  lemma {:induction false} BucketsRepresent<K>(h: seq<KeyEvent<K>>, evict: bool, k: K, now: Time)
    requires InOrder(h, now)
    ensures Represents(Buckets(h, evict), k, HistoryOf(h, k), now)
  {
    if h != [] {
      hide Represents, MakeRoom, FailIn;
      var before := h[..|h| - 1];
      var last := h[|h| - 1];
      var m := Buckets(before, evict);
      var hk := HistoryOf(before, k);
      if last.KeySucceeded? {
        BucketsRepresent(before, evict, k, now);
        SucceedRepresents(m, last.key, k, hk, now);
      } else {
        BucketsRepresent(before, evict, k, last.at);
        RoomRepresents(m, last.key, k, hk, last.at);
        FailRepresents(if evict then MakeRoom(m, last.key, last.at) else m, last.key, k, hk, last.at, now);
      }
      assert last.key != k ==> HistoryOf(h, k) == hk;
    }
  }

  /** The lazily evicted buckets answer every caller exactly as the whole history does. */
  lemma DelayIsPenalty<K>(h: seq<KeyEvent<K>>, evict: bool, k: K, now: Time)
    requires InOrder(h, now)
    ensures Delay(Buckets(h, evict), k, now) == PenaltyAfter(HistoryOf(h, k), now)
    ensures IsPenalty(HistoryOf(h, k), now, Delay(Buckets(h, evict), k, now))
  {
    BucketsRepresent(h, evict, k, now);
    PenaltyMeaning(HistoryOf(h, k), now);
  }

  /** Sweeping expired buckets is never noticed, now or later. */
  lemma EvictionUnobservable<K>(h: seq<KeyEvent<K>>, k: K, now: Time)
    requires InOrder(h, now)
    ensures Delay(Buckets(h, true), k, now) == Delay(Buckets(h, false), k, now)
  {
    DelayIsPenalty(h, true, k, now);
    DelayIsPenalty(h, false, k, now);
  }

  /** The cap is not hard: an insertion takes a map past it exactly when that many buckets are still live, and then every
      bucket left is live. */
  lemma OverfullMeansAllLive<K>(m: map<K, Bucket>, k: K, now: Time)
    requires k !in m
    ensures |FailIn(MakeRoom(m, k, now), k, now)| > 10_000 <==> |Evicted(m, now)| >= 10_000
    ensures |FailIn(MakeRoom(m, k, now), k, now)| > 10_000 ==>
              forall other :: other in FailIn(MakeRoom(m, k, now), k, now) ==>
                FailIn(MakeRoom(m, k, now), k, now)[other].Live(now)
  {
    var room := MakeRoom(m, k, now);
    assert FailIn(room, k, now).Keys == room.Keys + {k};
    assert |FailIn(room, k, now)| == |room| + 1;
    Subset(Evicted(m, now).Keys, m.Keys);
  }

  /** One failure of each of `n` keys, all at once. */
  function Burst(n: nat, now: Time): seq<KeyEvent<nat>> {
    seq(n, i => KeyFailed(i, now))
  }

  lemma BurstPush(n: nat, now: Time)
    ensures Burst(n + 1, now) == Burst(n, now) + [KeyFailed(n, now)]
  {
  }

  /** A bucket for each of the first `n` keys. */
  function Crowd(n: nat, now: Time): (m: map<nat, Bucket>)
    ensures |m| == n
    ensures forall i :: i in m ==> i < n && m[i] == Bucket(1, now)
  {
    if n == 0 then map[] else Crowd(n - 1, now)[n - 1 := Bucket(1, now)]
  }

  lemma CrowdGrows(n: nat, now: Time)
    ensures FailIn(MakeRoom(Crowd(n, now), n, now), n, now) == Crowd(n + 1, now)
  {
    hide MakeRoom;
    RoomOfLive(Crowd(n, now), n, now);
    assert n !in Crowd(n, now);
  }

  /** No number of entries is out of reach: a burst from `n` keys leaves `n` buckets. */
  lemma {:induction false} BurstFillsMap(n: nat, now: Time)
    ensures Buckets(Burst(n, now), true) == Crowd(n, now) && |Crowd(n, now)| == n
  {
    if n > 0 {
      hide Buckets, MakeRoom, Crowd, FailIn;
      BurstFillsMap(n - 1, now);
      BurstPush(n - 1, now);
      hide Burst;
      BucketsPush(Burst(n - 1, now), n - 1, now);
      CrowdGrows(n - 1, now);
    }
  }

  lemma RoomOfLive<K>(m: map<K, Bucket>, k: K, now: Time)
    requires forall other :: other in m ==> m[other].Live(now)
    ensures MakeRoom(m, k, now) == m
  {
    assert Evicted(m, now) == m;
  }

  // ----- the service -----

  datatype SystemEvent<Ip> = LoginFailed(at: Time, ip: Ip, account: string) | LoginSucceeded(ip: Ip, account: string)

  function IpEvents<Ip>(h: seq<SystemEvent<Ip>>): (r: seq<KeyEvent<Ip>>)
    ensures |r| == |h|
    ensures forall i :: 0 <= i < |h| ==>
              r[i] == if h[i].LoginFailed? then KeyFailed(h[i].ip, h[i].at) else KeySucceeded(h[i].ip)
  {
    seq(|h|, i requires 0 <= i < |h| =>
      if h[i].LoginFailed? then KeyFailed(h[i].ip, h[i].at) else KeySucceeded(h[i].ip))
  }

  function AccountEvents<Ip>(h: seq<SystemEvent<Ip>>): (r: seq<KeyEvent<string>>)
    ensures |r| == |h|
    ensures forall i :: 0 <= i < |h| ==>
              r[i] == if h[i].LoginFailed? then KeyFailed(h[i].account, h[i].at) else KeySucceeded(h[i].account)
  {
    seq(|h|, i requires 0 <= i < |h| =>
      if h[i].LoginFailed? then KeyFailed(h[i].account, h[i].at) else KeySucceeded(h[i].account))
  }

  ghost predicate Ordered<Ip>(h: seq<SystemEvent<Ip>>, now: Time) {
    && (forall i :: 0 <= i < |h| && h[i].LoginFailed? ==> h[i].at <= now)
    && (forall i, j :: 0 <= i < j < |h| && h[i].LoginFailed? && h[j].LoginFailed? ==> h[i].at <= h[j].at)
  }

  /** The stricter of what the address and the account owe. */
  function Owed<Ip(==)>(h: seq<SystemEvent<Ip>>, ip: Ip, account: string, now: Time): Duration {
    Max(PenaltyAfter(HistoryOf(IpEvents(h), ip), now), PenaltyAfter(HistoryOf(AccountEvents(h), account), now))
  }

  /** One more failure, seen by both maps. */
  lemma AfterFailure<Ip>(h: seq<SystemEvent<Ip>>, now: Time, ip: Ip, account: string)
    requires Ordered(h, now)
    ensures var after := h + [LoginFailed(now, ip, account)];
            && Ordered(after, now)
            && InOrder(IpEvents(after), now) && InOrder(AccountEvents(after), now)
            && Buckets(IpEvents(after), true) == FailIn(MakeRoom(Buckets(IpEvents(h), true), ip, now), ip, now)
            && Buckets(AccountEvents(after), true)
               == FailIn(MakeRoom(Buckets(AccountEvents(h), true), account, now), account, now)
  {
    var after := h + [LoginFailed(now, ip, account)];
    assert Ordered(after, now);
    assert IpEvents(after) == IpEvents(h) + [KeyFailed(ip, now)];
    assert AccountEvents(after) == AccountEvents(h) + [KeyFailed(account, now)];
    assert InOrder(IpEvents(after), now) && InOrder(AccountEvents(after), now);
    BucketsPush(IpEvents(h), ip, now);
    BucketsPush(AccountEvents(h), account, now);
    hide Buckets, FailIn, MakeRoom;
  }

  lemma BucketsPush<K>(h: seq<KeyEvent<K>>, k: K, now: Time)
    ensures Buckets(h + [KeyFailed(k, now)], true) == FailIn(MakeRoom(Buckets(h, true), k, now), k, now)
  {
    hide FailIn, MakeRoom;
    assert (h + [KeyFailed(k, now)])[..|h|] == h;
  }

  class LoginThrottle<Ip(==)> {
    var perIp: map<Ip, Bucket>
    var perAccount: map<string, Bucket>
    /** Everything recorded since the process started. */
    ghost var history: seq<SystemEvent<Ip>>

    ghost predicate Valid()
      reads this
    {
      perIp == Buckets(IpEvents(history), true) && perAccount == Buckets(AccountEvents(history), true)
    }

    constructor ()
      ensures Valid() && history == []
    {
      perIp, perAccount, history := map[], map[], [];
    }

    method PenaltyFor(now: Time, ip: Ip, username: string) returns (penalty: Duration)
      requires Valid() && Ordered(history, now)
      ensures penalty == Owed(history, ip, NormalizeUsername(username), now)
    {
      var account := NormalizeUsername(username);
      var ipDelay := if ip in perIp then perIp[ip].CurrentDelay(now) else 0;
      var accountDelay := if account in perAccount then perAccount[account].CurrentDelay(now) else 0;
      DelayIsPenalty(IpEvents(history), true, ip, now);
      DelayIsPenalty(AccountEvents(history), true, account, now);
      return Max(ipDelay, accountDelay);
    }

    /** The new penalty is the one a caller arriving now would be told. */
    method RecordFailure(now: Time, ip: Ip, username: string) returns (penalty: Duration)
      requires Valid() && Ordered(history, now)
      modifies this
      ensures Valid()
      ensures history == old(history) + [LoginFailed(now, ip, NormalizeUsername(username))]
      ensures penalty == Owed(history, ip, NormalizeUsername(username), now)
    {
      hide HistoryOf, PenaltyAfter, NormalizeUsername, FailIn, Delay, IsPenalty, Buckets;
      var account := NormalizeUsername(username);
      if |perIp| >= MAX_ENTRIES && ip !in perIp {
        perIp := Evicted(perIp, now);
      }
      if |perAccount| >= MAX_ENTRIES && account !in perAccount {
        perAccount := Evicted(perAccount, now);
      }
      var ipDelay, accountDelay;
      perIp, ipDelay := RecordIn(perIp, ip, now);
      perAccount, accountDelay := RecordIn(perAccount, account, now);
      AfterFailure(history, now, ip, account);
      history := history + [LoginFailed(now, ip, account)];
      DelayIsPenalty(IpEvents(history), true, ip, now);
      DelayIsPenalty(AccountEvents(history), true, account, now);
      return Max(ipDelay, accountDelay);
    }

    method RecordSuccess(ip: Ip, username: string)
      requires Valid()
      modifies this
      ensures Valid()
      ensures history == old(history) + [LoginSucceeded(ip, NormalizeUsername(username))]
    {
      perIp := perIp - {ip};
      perAccount := perAccount - {NormalizeUsername(username)};
      history := history + [LoginSucceeded(ip, NormalizeUsername(username))];
      assert IpEvents(history)[..|history| - 1] == IpEvents(old(history));
      assert AccountEvents(history)[..|history| - 1] == AccountEvents(old(history));
    }
  }

  /** One bucket counts one more failure; the delay returned is the one now owed. */
  method RecordIn<K(==)>(m: map<K, Bucket>, k: K, now: Time) returns (after: map<K, Bucket>, delay: Duration)
    ensures after == FailIn(m, k, now) && delay == Delay(after, k, now)
  {
    if k in m {
      var bucket := m[k].Fail(now);
      after, delay := m[k := bucket], RequiredDelay(bucket.failures);
    } else {
      after, delay := m[k := Bucket(1, now)], RequiredDelay(1);
    }
  }
}

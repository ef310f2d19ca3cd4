/** Threshold alerts: per-subject breach streaks with a sustain requirement and a cooldown between notifications. */
module Alerts {
  import opened Wrappers
  import opened Text
  import opened Numbers
  import opened Collections

  /** The streak counter has thirty-two bits. Times are in nanoseconds. */
  const WORD: nat := 0x1_0000_0000

  datatype Scope = NodeScope | VmScope | LxcScope

  datatype Metric = CpuPct | MemoryPct | DiskReadMibS | DiskWriteMibS | NetRxMibS | NetTxMibS | PoolUsedPct

  datatype Rule = Rule(id: Id, name: string, enabled: bool, scope: Scope, guestId: Option<string>, metric: Metric,
                       threshold: real, sustainTicks: nat, cooldownSecs: nat)

  datatype Guest = Guest(id: string, cpuPct: real, memoryUsed: nat, memoryMax: nat, diskRead: nat, diskWrite: nat, netRx: nat,
                         netTx: nat)

  datatype Pool = Pool(name: string, used: nat, size: nat)

  datatype Observations = Observations(vms: seq<Guest>, containers: seq<Guest>, nodeCpuPct: real, nodeMemoryUsed: nat,
                                       nodeMemoryTotal: nat, pools: seq<Pool>)

  datatype Breach = Breach(ticks: nat, lastFiredAt: Option<Time>)

  /** One observed sample of one chain, judged by the rule as it stood at the time: the cooldown is checked at `at`, and a
      notification is stamped with a later reading of the clock. */
  datatype Event = Event(rule: Id, subject: string, breached: bool, sustain: nat, cooldown: nat, at: Time, stamp: Time)

  /** The successive readings of the clock. */
  type Clock = nat -> Time

  ghost predicate Ticking(clock: Clock) {
    forall i, j :: i <= j ==> clock(i) <= clock(j)
  }

  // ----- what a rule watches -----

  function PoolSubject(name: string): string {
    "pool:" + name
  }

  function MatchingSubjects(rule: Rule, obs: Observations): seq<string> {
    match rule.scope
    case NodeScope =>
      if rule.metric != PoolUsedPct then ["node"]
      else if rule.guestId.Some? then [PoolSubject(rule.guestId.value)]
      else seq(|obs.pools|, i requires 0 <= i < |obs.pools| => PoolSubject(obs.pools[i].name))
    case VmScope =>
      if rule.guestId.Some? then [rule.guestId.value]
      else seq(|obs.vms|, i requires 0 <= i < |obs.vms| => obs.vms[i].id)
    case LxcScope =>
      if rule.guestId.Some? then [rule.guestId.value]
      else seq(|obs.containers|, i requires 0 <= i < |obs.containers| => obs.containers[i].id)
  }

  function Percent(part: nat, whole: nat): real
    requires whole > 0
  {
    (part as real) / (whole as real) * 100.0
  }

  function Mib(bytes: nat): real {
    (bytes as real) / 1048576.0
  }

  function FindGuest(samples: seq<Guest>, subject: string): Option<Guest> {
    if samples == [] then None
    else if samples[0].id == subject then Some(samples[0])
    else FindGuest(samples[1..], subject)
  }

  function FindPool(pools: seq<Pool>, name: string): Option<Pool> {
    if pools == [] then None
    else if pools[0].name == name then Some(pools[0])
    else FindPool(pools[1..], name)
  }

  function GuestValue(metric: Metric, g: Guest): Option<real> {
    match metric
    case CpuPct => Some(g.cpuPct)
    case MemoryPct => Some(if g.memoryMax == 0 then 0.0 else Percent(g.memoryUsed, g.memoryMax))
    case DiskReadMibS => Some(Mib(g.diskRead))
    case DiskWriteMibS => Some(Mib(g.diskWrite))
    case NetRxMibS => Some(Mib(g.netRx))
    case NetTxMibS => Some(Mib(g.netTx))
    case PoolUsedPct => None
  }

  function NodeValue(metric: Metric, subject: string, obs: Observations): Option<real> {
    match metric
    case CpuPct => Some(obs.nodeCpuPct)
    case MemoryPct => if obs.nodeMemoryTotal == 0 then None else Some(Percent(obs.nodeMemoryUsed, obs.nodeMemoryTotal))
    case PoolUsedPct =>
      (match StripPrefix(subject, "pool:")
       case None => None
       case Some(name) =>
         var pool := FindPool(obs.pools, name);
         if pool.None? || pool.value.size == 0 then None else Some(Percent(pool.value.used, pool.value.size)))
    case _ => None
  }

  /** The observed value, or nothing when there is no fresh sample. */
  function Observe(rule: Rule, subject: string, obs: Observations): Option<real> {
    match rule.scope
    case NodeScope => NodeValue(rule.metric, subject, obs)
    case VmScope =>
      var g := FindGuest(obs.vms, subject);
      if g.None? then None else GuestValue(rule.metric, g.value)
    case LxcScope =>
      var g := FindGuest(obs.containers, subject);
      if g.None? then None else GuestValue(rule.metric, g.value)
  }

  // ----- what a sample says -----

  /** `part` is at least `threshold` percent of `whole`. */
  ghost predicate AtLeastPercent(part: nat, whole: nat, threshold: real) {
    (part as real) * 100.0 >= threshold * (whole as real)
  }

  /** A guest reaches the threshold of a metric, in the units of its counters. */
  ghost predicate GuestReaches(metric: Metric, g: Guest, threshold: real) {
    match metric
    case CpuPct => g.cpuPct >= threshold
    case MemoryPct => if g.memoryMax == 0 then threshold <= 0.0 else AtLeastPercent(g.memoryUsed, g.memoryMax, threshold)
    case DiskReadMibS => g.diskRead as real >= threshold * 1048576.0
    case DiskWriteMibS => g.diskWrite as real >= threshold * 1048576.0
    case NetRxMibS => g.netRx as real >= threshold * 1048576.0
    case NetTxMibS => g.netTx as real >= threshold * 1048576.0
    case PoolUsedPct => false
  }

  /** The first guest of that id, which some guest metric judges. */
  ghost predicate GuestJudged(rule: Rule, samples: seq<Guest>, subject: string, breached: bool) {
    && rule.metric != PoolUsedPct
    && exists i ::
         && 0 <= i < |samples| && samples[i].id == subject && (forall k :: 0 <= k < i ==> samples[k].id != subject)
         && (breached <==> GuestReaches(rule.metric, samples[i], rule.threshold))
  }

  /** The first pool of that name, unless its size is unknown. */
  ghost predicate PoolJudged(rule: Rule, pools: seq<Pool>, subject: string, breached: bool) {
    exists i ::
      && 0 <= i < |pools| && subject == "pool:" + pools[i].name && (forall k :: 0 <= k < i ==> pools[k].name != pools[i].name)
      && pools[i].size > 0 && (breached <==> AtLeastPercent(pools[i].used, pools[i].size, rule.threshold))
  }

  /** There is a fresh sample of the subject, and `breached` is whether it reaches the threshold. */
  ghost predicate Judged(rule: Rule, subject: string, obs: Observations, breached: bool) {
    match rule.scope
    case VmScope => GuestJudged(rule, obs.vms, subject, breached)
    case LxcScope => GuestJudged(rule, obs.containers, subject, breached)
    case NodeScope =>
      match rule.metric
      case CpuPct => breached <==> obs.nodeCpuPct >= rule.threshold
      case MemoryPct =>
        obs.nodeMemoryTotal > 0 && (breached <==> AtLeastPercent(obs.nodeMemoryUsed, obs.nodeMemoryTotal, rule.threshold))
      case PoolUsedPct => PoolJudged(rule, obs.pools, subject, breached)
      case _ => false
  }

  /** The subjects a rule watches: the one it is pinned to, or all of its scope. */
  ghost predicate Watches(rule: Rule, subject: string, obs: Observations) {
    match rule.scope
    case NodeScope =>
      if rule.metric != PoolUsedPct then subject == "node"
      else if rule.guestId.Some? then subject == "pool:" + rule.guestId.value
      else exists p :: p in obs.pools && subject == "pool:" + p.name
    case VmScope => if rule.guestId.Some? then subject == rule.guestId.value else exists g :: g in obs.vms && g.id == subject
    case LxcScope =>
      if rule.guestId.Some? then subject == rule.guestId.value else exists g :: g in obs.containers && g.id == subject
  }

  lemma SubjectsAreWatched(rule: Rule, subject: string, obs: Observations)
    ensures subject in MatchingSubjects(rule, obs) <==> Watches(rule, subject, obs)
  {
    var subjects := MatchingSubjects(rule, obs);
    if Watches(rule, subject, obs) && rule.guestId.None? {
      match rule.scope
      case VmScope =>
        var g :| g in obs.vms && g.id == subject;
        var i :| 0 <= i < |obs.vms| && obs.vms[i] == g;
        assert subjects[i] == subject;
      case LxcScope =>
        var g :| g in obs.containers && g.id == subject;
        var i :| 0 <= i < |obs.containers| && obs.containers[i] == g;
        assert subjects[i] == subject;
      case NodeScope =>
        if rule.metric == PoolUsedPct {
          var p :| p in obs.pools && subject == "pool:" + p.name;
          var i :| 0 <= i < |obs.pools| && obs.pools[i] == p;
          assert subjects[i] == subject;
        }
    }
  }

  lemma PercentReaches(part: nat, whole: nat, threshold: real)
    requires whole > 0
    ensures Percent(part, whole) >= threshold <==> AtLeastPercent(part, whole, threshold)
  {
    var w := whole as real;
    var q := (part as real) / w;
    assert q * w == part as real;
    if q * 100.0 >= threshold {
      assert q * 100.0 * w >= threshold * w;
    } else {
      assert q * 100.0 * w < threshold * w;
    }
    assert q * 100.0 * w == q * w * 100.0;
  }

  lemma GuestValueReaches(metric: Metric, g: Guest, threshold: real)
    ensures GuestValue(metric, g).Some? <==> metric != PoolUsedPct
    ensures GuestValue(metric, g).Some? ==> (GuestValue(metric, g).value >= threshold <==> GuestReaches(metric, g, threshold))
  {
    hide Percent, AtLeastPercent;
    if g.memoryMax > 0 {
      PercentReaches(g.memoryUsed, g.memoryMax, threshold);
    }
  }

  lemma {:induction false} FirstGuest(samples: seq<Guest>, subject: string)
    ensures FindGuest(samples, subject).None? <==> forall k :: 0 <= k < |samples| ==> samples[k].id != subject
    ensures FindGuest(samples, subject).Some? ==>
              exists i :: 0 <= i < |samples| && samples[i] == FindGuest(samples, subject).value && samples[i].id == subject
                          && forall k :: 0 <= k < i ==> samples[k].id != subject
  {
    if samples != [] && samples[0].id != subject {
      FirstGuest(samples[1..], subject);
      if FindGuest(samples[1..], subject).Some? {
        var i :| 0 <= i < |samples[1..]| && samples[1..][i] == FindGuest(samples, subject).value && samples[1..][i].id == subject
                 && forall k :: 0 <= k < i ==> samples[1..][k].id != subject;
        assert samples[i + 1] == samples[1..][i];
        assert forall k :: 0 < k < i + 1 ==> samples[k] == samples[1..][k - 1];
      } else {
        assert forall k :: 0 < k < |samples| ==> samples[k] == samples[1..][k - 1];
      }
    }
  }

  lemma {:induction false} FirstPool(pools: seq<Pool>, name: string)
    ensures FindPool(pools, name).None? <==> forall k :: 0 <= k < |pools| ==> pools[k].name != name
    ensures FindPool(pools, name).Some? ==>
              exists i :: 0 <= i < |pools| && pools[i] == FindPool(pools, name).value && pools[i].name == name
                          && forall k :: 0 <= k < i ==> pools[k].name != name
  {
    if pools != [] && pools[0].name != name {
      FirstPool(pools[1..], name);
      if FindPool(pools[1..], name).Some? {
        var i :| 0 <= i < |pools[1..]| && pools[1..][i] == FindPool(pools, name).value && pools[1..][i].name == name
                 && forall k :: 0 <= k < i ==> pools[1..][k].name != name;
        assert pools[i + 1] == pools[1..][i];
        assert forall k :: 0 < k < i + 1 ==> pools[k] == pools[1..][k - 1];
      } else {
        assert forall k :: 0 < k < |pools| ==> pools[k] == pools[1..][k - 1];
      }
    }
  }

  lemma GuestObserved(rule: Rule, samples: seq<Guest>, subject: string, breached: bool)
    ensures var g := FindGuest(samples, subject);
            var value := if g.None? then None else GuestValue(rule.metric, g.value);
            GuestJudged(rule, samples, subject, breached) <==> value.Some? && breached == (value.value >= rule.threshold)
  {
    hide GuestValue, GuestReaches;
    FirstGuest(samples, subject);
    var g := FindGuest(samples, subject);
    if g.Some? {
      GuestValueReaches(rule.metric, g.value, rule.threshold);
      var i :| 0 <= i < |samples| && samples[i] == g.value && samples[i].id == subject
               && forall k :: 0 <= k < i ==> samples[k].id != subject;
      assert forall j :: (0 <= j < |samples| && samples[j].id == subject
                          && forall k :: 0 <= k < j ==> samples[k].id != subject) ==> j == i;
    }
  }

  lemma PoolObserved(rule: Rule, pools: seq<Pool>, name: string, breached: bool)
    ensures var pool := FindPool(pools, name);
            PoolJudged(rule, pools, "pool:" + name, breached) <==>
            pool.Some? && pool.value.size > 0 && breached == (Percent(pool.value.used, pool.value.size) >= rule.threshold)
  {
    hide Percent, AtLeastPercent;
    FirstPool(pools, name);
    var pool := FindPool(pools, name);
    forall j | 0 <= j < |pools|
      ensures "pool:" + name == "pool:" + pools[j].name <==> pools[j].name == name
    {
      assert ("pool:" + name)[5..] == name && ("pool:" + pools[j].name)[5..] == pools[j].name;
    }
    if pool.Some? {
      if pool.value.size > 0 {
        PercentReaches(pool.value.used, pool.value.size, rule.threshold);
      }
      var i :| 0 <= i < |pools| && pools[i] == pool.value && pools[i].name == name
               && forall k :: 0 <= k < i ==> pools[k].name != name;
      assert forall j :: (0 <= j < |pools| && pools[j].name == name
                          && forall k :: 0 <= k < j ==> pools[k].name != pools[j].name) ==> j == i;
    }
  }

  /** What is observed is the sample of the rule's subject, compared with the threshold in its own units. */
  lemma ObservedIsJudged(rule: Rule, subject: string, obs: Observations, breached: bool)
    ensures var value := Observe(rule, subject, obs);
            Judged(rule, subject, obs, breached) <==> value.Some? && breached == (value.value >= rule.threshold)
  {
    hide FindGuest, FindPool, GuestValue, Percent, AtLeastPercent, GuestJudged, PoolJudged;
    match rule.scope
    case VmScope =>
      GuestObserved(rule, obs.vms, subject, breached);
    case LxcScope =>
      GuestObserved(rule, obs.containers, subject, breached);
    case NodeScope =>
      NodeObserved(rule, subject, obs, breached);
  }

  lemma NodeObserved(rule: Rule, subject: string, obs: Observations, breached: bool)
    requires rule.scope == NodeScope
    ensures var value := NodeValue(rule.metric, subject, obs);
            Judged(rule, subject, obs, breached) <==> value.Some? && breached == (value.value >= rule.threshold)
  {
    hide FindPool, Percent, AtLeastPercent, PoolJudged;
    if rule.metric == MemoryPct && obs.nodeMemoryTotal > 0 {
      PercentReaches(obs.nodeMemoryUsed, obs.nodeMemoryTotal, rule.threshold);
    }
    if rule.metric == PoolUsedPct {
      var name := StripPrefix(subject, "pool:");
      if name.Some? {
        PoolObserved(rule, obs.pools, name.value, breached);
      } else {
        NotAPool(rule, obs.pools, subject, breached);
      }
    }
  }

  lemma NotAPool(rule: Rule, pools: seq<Pool>, subject: string, breached: bool)
    requires !("pool:" <= subject)
    ensures !PoolJudged(rule, pools, subject, breached)
  {
  }

  // ----- one chain -----

  function Need(e: Event): nat {
    if e.sustain < 1 then 1 else e.sustain
  }

  /** The unsigned cooldown as the signed number it is compared as. */
  function Signed(cooldown: nat): int {
    var c := cooldown % 0x1_0000_0000_0000_0000;
    if c < 0x8000_0000_0000_0000 then c else c - 0x1_0000_0000_0000_0000
  }

  predicate CooldownElapsed(last: Time, now: Time, cooldown: nat)
    requires last <= now
  {
    (now - last) / SECOND >= Signed(cooldown)
  }

  /** Whole seconds decide as the exact time difference does; a cooldown of 2^63 seconds or more never holds anything
      back. */
  lemma CooldownMeaning(last: Time, now: Time, cooldown: nat)
    requires last <= now && cooldown < 0x1_0000_0000_0000_0000
    ensures CooldownElapsed(last, now, cooldown) <==>
            cooldown >= 0x8000_0000_0000_0000 || now - last >= cooldown * SECOND
  {
    var gap := now - last;
    assert gap == gap / SECOND * SECOND + gap % SECOND;
    if cooldown < 0x8000_0000_0000_0000 {
      if gap / SECOND >= cooldown {
        assert gap / SECOND * SECOND >= cooldown * SECOND;
      } else {
        assert gap / SECOND * SECOND <= (cooldown - 1) * SECOND;
      }
    }
  }

  predicate Ready(b: Breach, e: Event) {
    b.lastFiredAt.Some? ==> b.lastFiredAt.value <= e.at && CooldownElapsed(b.lastFiredAt.value, e.at, e.cooldown)
  }

  /** Thirty-two bit counting, wrapping. */
  function Ticked(b: Breach): nat {
    (b.ticks + 1) % WORD
  }

  predicate Decide(b: Breach, e: Event) {
    e.breached && Ticked(b) >= Need(e) && Ready(b, e)
  }

  function Step(b: Breach, e: Event): Breach {
    if !e.breached then b.(ticks := 0)
    else Breach(Ticked(b), if Decide(b, e) then Some(e.stamp) else b.lastFiredAt)
  }

  function Chain(h: seq<Event>): Breach {
    if h == [] then Breach(0, None) else Step(Chain(h[..|h| - 1]), h[|h| - 1])
  }

  /** Whether sample `i` of a chain sends a notification. */
  predicate FiredAt(h: seq<Event>, i: nat)
    requires i < |h|
  {
    Decide(Chain(h[..i]), h[i])
  }

  ghost predicate Ordered(h: seq<Event>) {
    && (forall i :: 0 <= i < |h| ==> h[i].at <= h[i].stamp)
    && (forall i, j :: 0 <= i < j < |h| ==> h[i].stamp <= h[j].at)
  }

  /** The number of breached samples since the last one below the threshold. */
  function Streak(h: seq<Event>): (n: nat)
    ensures n <= |h|
    ensures forall k :: |h| - n <= k < |h| ==> h[k].breached
    ensures n < |h| ==> !h[|h| - 1 - n].breached
  {
    if h == [] || !h[|h| - 1].breached then 0 else 1 + Streak(h[..|h| - 1])
  }

  /** The last `Need` observed samples all reach the threshold. */
  ghost predicate Sustained(h: seq<Event>, i: nat)
    requires i < |h|
  {
    var n := Need(h[i]);
    n <= i + 1 && forall k :: i + 1 - n <= k <= i ==> h[k].breached
  }

  lemma SustainedIsStreak(h: seq<Event>, i: nat)
    requires i < |h|
    ensures Sustained(h, i) <==> Streak(h[..i + 1]) >= Need(h[i])
  {
    var p := h[..i + 1];
    var s := Streak(p);
    assert forall k :: 0 <= k <= i ==> p[k] == h[k];
    if s < Need(h[i]) && s < |p| {
      assert !h[i - s].breached;
    }
  }

  lemma {:induction false} TicksAreStreak(h: seq<Event>)
    ensures Chain(h).ticks == Streak(h) % WORD
  {
    if h != [] {
      TicksAreStreak(h[..|h| - 1]);
      ModBelow(Streak(h));
      hide Decide;
    }
  }

  /** Earlier decisions do not depend on later samples. */
  lemma PrefixFires(h: seq<Event>, n: nat)
    requires n <= |h|
    ensures forall j :: 0 <= j < n ==> FiredAt(h[..n], j) == FiredAt(h, j) && h[..n][j] == h[j]
  {
    hide Decide, Chain;
    forall j | 0 <= j < n
      ensures FiredAt(h[..n], j) == FiredAt(h, j)
    {
      assert h[..n][..j] == h[..j];
    }
  }

  /** `last` is the time of the latest notification. */
  ghost predicate IsLatest(h: seq<Event>, last: Option<Time>) {
    match last
    case None => forall j :: 0 <= j < |h| ==> !FiredAt(h, j)
    case Some(t) =>
      && (exists j :: 0 <= j < |h| && FiredAt(h, j) && h[j].stamp == t)
      && (forall j :: 0 <= j < |h| && FiredAt(h, j) ==> h[j].stamp <= t)
  }

  lemma {:induction false} LastFireIsLatest(h: seq<Event>)
    requires Ordered(h)
    ensures IsLatest(h, Chain(h).lastFiredAt)
  {
    hide FiredAt, Chain;
    if h == [] {
      assert Chain(h).lastFiredAt == None by {
        EmptyChain();
      }
    } else {
      var n := |h| - 1;
      LastFireIsLatest(h[..n]);
      PrefixFires(h, n);
      ChainLast(h);
      var last := Chain(h[..n]).lastFiredAt;
      if !FiredAt(h, n) && last.Some? {
        var j :| 0 <= j < n && FiredAt(h[..n], j) && h[..n][j].stamp == last.value;
        assert FiredAt(h, j) && h[j].stamp == last.value;
      }
    }
  }

  lemma EmptyChain()
    ensures Chain([]) == Breach(0, None)
  {
  }

  lemma ChainLast(h: seq<Event>)
    requires h != []
    ensures Chain(h).lastFiredAt ==
            if FiredAt(h, |h| - 1) then Some(h[|h| - 1].stamp) else Chain(h[..|h| - 1]).lastFiredAt
  {
  }

  lemma ElapsedEarlier(a: Time, b: Time, now: Time, cooldown: nat)
    requires a <= b <= now && CooldownElapsed(b, now, cooldown)
    ensures CooldownElapsed(a, now, cooldown)
  {
    assert (now - b) / SECOND <= (now - a) / SECOND;
  }

  ghost predicate RestedSince(h: seq<Event>, i: nat)
    requires i < |h| && Ordered(h)
  {
    forall j :: 0 <= j < i && FiredAt(h, j) ==> CooldownElapsed(h[j].stamp, h[i].at, h[i].cooldown)
  }

  /** A sample fires exactly when the required number of latest samples all reach the threshold, every earlier
      notification is at least the cooldown old, and the 32-bit streak counter has not just wrapped below the requirement. */
  lemma FiresExactly(h: seq<Event>, i: nat)
    requires i < |h| && Ordered(h)
    ensures FiredAt(h, i) <==>
            Sustained(h, i) && RestedSince(h, i) && Streak(h[..i + 1]) % 0x1_0000_0000 >= Need(h[i])
  {
    hide Chain, Streak, Sustained, Ready, RestedSince, Ordered;
    StreakStep(h, i);
    SustainedIsStreak(h, i);
    TicksAreStreak(h[..i]);
    ModBelow(Streak(h[..i + 1]));
    ReadyMeansRested(h, i);
  }

  lemma StreakStep(h: seq<Event>, i: nat)
    requires i < |h|
    ensures Streak(h[..i + 1]) == if h[i].breached then Streak(h[..i]) + 1 else 0
  {
    assert h[..i + 1][..i] == h[..i] && h[..i + 1][i] == h[i];
  }

  lemma ReadyMeansRested(h: seq<Event>, i: nat)
    requires i < |h| && Ordered(h)
    ensures Ready(Chain(h[..i]), h[i]) <==> RestedSince(h, i)
  {
    hide FiredAt, Chain, CooldownElapsed;
    var p := h[..i];
    var e := h[i];
    LastFireIsLatest(p);
    PrefixFires(h, i);
    var last := Chain(p).lastFiredAt;
    if last.Some? {
      var t := last.value;
      var k :| 0 <= k < i && FiredAt(p, k) && p[k].stamp == t;
      assert FiredAt(h, k) && h[k].stamp == t;
      if Ready(Chain(p), e) {
        forall j | 0 <= j < i && FiredAt(h, j)
          ensures CooldownElapsed(h[j].stamp, e.at, e.cooldown)
        {
          assert FiredAt(p, j) && p[j].stamp == h[j].stamp;
          ElapsedEarlier(h[j].stamp, t, e.at, e.cooldown);
        }
      }
    }
  }

  lemma ModBelow(n: nat)
    ensures n % WORD <= n && (n < WORD ==> n % WORD == n)
    ensures n > 0 ==> n % WORD == ((n - 1) % WORD + 1) % WORD
  {
  }

  /** Below 2^32 samples in a row, the counter does not matter. */
  lemma FiresAsPromised(h: seq<Event>, i: nat)
    requires i < |h| && Ordered(h) && Streak(h[..i + 1]) < 0x1_0000_0000
    ensures FiredAt(h, i) <==> Sustained(h, i) && RestedSince(h, i)
  {
    FiresExactly(h, i);
    SustainedIsStreak(h, i);
    ModBelow(Streak(h[..i + 1]));
  }

  /** At the 2^32nd breach in a row the counter is back at zero and a sustained, rested alert stays silent. */
  lemma WrapSilences(h: seq<Event>, i: nat)
    requires i < |h| && Ordered(h) && Streak(h[..i + 1]) == WORD && h[i].sustain < WORD
    ensures Sustained(h, i) && !FiredAt(h, i)
  {
    FiresExactly(h, i);
    SustainedIsStreak(h, i);
  }

  /** Two notifications of one chain are at least the later one's cooldown apart, from the stamp of the first to the check
      of the second. */
  lemma FiresApart(h: seq<Event>, i: nat, j: nat)
    requires i < j < |h| && Ordered(h) && FiredAt(h, i) && FiredAt(h, j)
    requires h[j].cooldown < 0x8000_0000_0000_0000
    ensures h[j].at - h[i].stamp >= h[j].cooldown * SECOND
  {
    hide FiredAt, Sustained, Streak;
    FiresExactly(h, j);
    CooldownMeaning(h[i].stamp, h[j].at, h[j].cooldown);
  }

  /** A sample that reaches the threshold at time zero. */
  function Breached(sustain: nat, cooldown: nat): Event {
    Event("rule", "subject", true, sustain, cooldown, 0, 0)
  }

  /** After 2^32 breaches in a row nothing is sent, though one is required and no cooldown applies. */
  lemma WrapExample()
    ensures var h := seq(WORD, k => Breached(1, 0));
            Ordered(h) && Sustained(h, WORD - 1) && !FiredAt(h, WORD - 1)
  {
    hide Chain;
    var h := seq(WORD, k => Breached(1, 0));
    assert h[..WORD - 1 + 1] == h;
    assert Streak(h) == |h|;
    WrapSilences(h, WORD - 1);
  }

  /** With a cooldown of 2^63 seconds two notifications go out at once. */
  lemma HugeCooldownExample()
    ensures var e := Breached(1, 0x8000_0000_0000_0000);
            FiredAt([e, e], 0) && FiredAt([e, e], 1)
  {
    var e := Breached(1, 0x8000_0000_0000_0000);
    assert [e, e][..0] == [] && [e, e][..1] == [e] && [e][..0] == [];
    assert Chain([e]) == Breach(1, Some(0));
  }

  // ----- many chains -----

  function Key(rule: Id, subject: string): string {
    rule + "|" + subject
  }

  function KeyOf(e: Event): string {
    Key(e.rule, e.subject)
  }

  /** A rule id contains no bar, so a key says which rule and which subject it belongs to. */
  lemma KeysAreDistinct(a: Id, s: string, b: Id, t: string)
    requires '|' !in a && '|' !in b && Key(a, s) == Key(b, t)
    ensures a == b && s == t
  {
    SplitOnceAt(a, '|', s);
    SplitOnceAt(b, '|', t);
  }

  lemma PrefixTellsRule(rule: Id, subject: string, id: Id)
    requires '|' !in rule && '|' !in id
    ensures StartsWith(Key(rule, subject), id + "|") <==> rule == id
  {
    var key := Key(rule, subject);
    if StartsWith(key, id + "|") {
      var rest := key[|id| + 1..];
      assert key == id + "|" + rest;
      KeysAreDistinct(rule, subject, id, rest);
    }
  }

  /** The samples of one chain. */
  function Of(h: seq<Event>, key: string): (r: seq<Event>)
    ensures forall e :: e in r <==> e in h && KeyOf(e) == key
  {
    if h == [] then []
    else
      var before := Of(h[..|h| - 1], key);
      var e := h[|h| - 1];
      assert h == h[..|h| - 1] + [e];
      if KeyOf(e) == key then before + [e] else before
  }

  lemma OfPush(h: seq<Event>, e: Event, key: string)
    ensures Of(h + [e], key) == if KeyOf(e) == key then Of(h, key) + [e] else Of(h, key)
  {
    assert (h + [e])[..|h|] == h;
  }

  lemma OrderedPush(h: seq<Event>, e: Event)
    requires Ordered(h) && e.at <= e.stamp && forall x :: x in h ==> x.stamp <= e.at
    ensures Ordered(h + [e])
  {
  }

  /** The last sample of a history comes after those before it. */
  lemma OrderedLast(h: seq<Event>)
    requires Ordered(h) && h != []
    ensures var before, e := h[..|h| - 1], h[|h| - 1];
            Ordered(before) && e.at <= e.stamp && forall x :: x in before ==> x.stamp <= e.at
  {
  }

  lemma {:induction false} OfOrdered(h: seq<Event>, key: string)
    requires Ordered(h)
    ensures Ordered(Of(h, key))
  {
    if h != [] {
      hide KeyOf, Ordered;
      OrderedLast(h);
      OfOrdered(h[..|h| - 1], key);
      OrderedPush(Of(h[..|h| - 1], key), h[|h| - 1]);
    }
  }

  function Entry(breach: map<string, Breach>, key: string): Breach {
    if key in breach then breach[key] else Breach(0, None)
  }

  /** The table holds, for every chain, the state its own samples lead to. */
  ghost predicate BreachFits(breach: map<string, Breach>, h: seq<Event>) {
    forall key :: Entry(breach, key) == Chain(Of(h, key))
  }

  lemma BreachStep(breach: map<string, Breach>, h: seq<Event>, e: Event)
    requires BreachFits(breach, h)
    ensures BreachFits(breach[KeyOf(e) := Step(Entry(breach, KeyOf(e)), e)], h + [e])
  {
    hide Step, KeyOf, Of;
    var after := breach[KeyOf(e) := Step(Entry(breach, KeyOf(e)), e)];
    forall key
      ensures Entry(after, key) == Chain(Of(h + [e], key))
    {
      OfPush(h, e, key);
      if key == KeyOf(e) {
        var before := Of(h, key);
        assert (before + [e])[..|before|] == before;
      }
    }
  }

  /** Whether the latest sample of a history sends a notification. */
  predicate LatestFires(h: seq<Event>)
    requires h != []
  {
    var chain := Of(h, KeyOf(h[|h| - 1]));
    chain != [] && FiredAt(chain, |chain| - 1)
  }

  function FireCount(h: seq<Event>): nat {
    if h == [] then 0 else FireCount(h[..|h| - 1]) + if LatestFires(h) then 1 else 0
  }

  lemma LatestDecides(h: seq<Event>, e: Event)
    ensures LatestFires(h + [e]) <==> Decide(Chain(Of(h, KeyOf(e))), e)
    ensures FireCount(h + [e]) == FireCount(h) + if LatestFires(h + [e]) then 1 else 0
  {
    hide Decide, Chain, Of, KeyOf;
    OfPush(h, e, KeyOf(e));
    var before := Of(h, KeyOf(e));
    assert (before + [e])[..|before|] == before;
    assert (h + [e])[..|h|] == h;
  }

  function EventOf(rule: Rule, subject: string, value: real, at: Time, stamp: Time): Event {
    Event(rule.id, subject, value >= rule.threshold, rule.sustainTicks, rule.cooldownSecs, at, stamp)
  }

  /** Sample number `k` of an evaluation, with its two readings of the clock. */
  function SampleOf(rule: Rule, subject: string, value: real, clock: Clock, k: nat): Event {
    EventOf(rule, subject, value, clock(2 * k), clock(2 * k + 1))
  }

  /** The samples one rule takes of the first subjects, the first being number `base`. */
  function SubjectSamples(rule: Rule, subjects: seq<string>, obs: Observations, clock: Clock, base: nat): seq<Event> {
    if subjects == [] then []
    else
      var n := |subjects| - 1;
      var before := SubjectSamples(rule, subjects[..n], obs, clock, base);
      var value := Observe(rule, subjects[n], obs);
      before + if value.Some? then [SampleOf(rule, subjects[n], value.value, clock, base + |before|)] else []
  }

  /** The samples of one evaluation. */
  function Samples(rules: seq<Rule>, obs: Observations, clock: Clock): seq<Event> {
    if rules == [] then []
    else
      var n := |rules| - 1;
      var before := Samples(rules[..n], obs, clock);
      before + if rules[n].enabled then SubjectSamples(rules[n], MatchingSubjects(rules[n], obs), obs, clock, |before|) else []
  }

  /** The sample is the one a rule takes of a subject, judged by the rule's own numbers. */
  ghost predicate TakenOf(rule: Rule, obs: Observations, e: Event) {
    e.rule == rule.id && e.sustain == rule.sustainTicks && e.cooldown == rule.cooldownSecs
    && Judged(rule, e.subject, obs, e.breached)
  }

  lemma {:induction false} SubjectSampled(rule: Rule, subjects: seq<string>, obs: Observations, clock: Clock, base: nat)
    ensures forall e :: e in SubjectSamples(rule, subjects, obs, clock, base) ==> e.subject in subjects && TakenOf(rule, obs, e)
    ensures forall subject, b :: subject in subjects && Judged(rule, subject, obs, b) ==>
              exists e :: e in SubjectSamples(rule, subjects, obs, clock, base) && e.subject == subject && e.breached == b
  {
    hide Observe, Judged;
    if subjects != [] {
      var n := |subjects| - 1;
      var before := SubjectSamples(rule, subjects[..n], obs, clock, base);
      var all := SubjectSamples(rule, subjects, obs, clock, base);
      SubjectSampled(rule, subjects[..n], obs, clock, base);
      ObservedIsJudged(rule, subjects[n], obs, true);
      ObservedIsJudged(rule, subjects[n], obs, false);
      assert forall e :: e in before ==> e in all;
      if Observe(rule, subjects[n], obs).Some? {
        assert all[|before|].subject == subjects[n] && all[|before|] in all;
      }
      assert subjects == subjects[..n] + [subjects[n]];
    }
  }

  /** The sample comes from an enabled rule that watches its subject and found a value. */
  ghost predicate Sampled(rules: seq<Rule>, obs: Observations, e: Event) {
    exists rule :: rule in rules && rule.enabled && Watches(rule, e.subject, obs) && TakenOf(rule, obs, e)
  }

  /** An enabled rule samples every subject it watches that has a value. */
  ghost predicate SampledAll(rules: seq<Rule>, obs: Observations, events: seq<Event>) {
    forall rule, subject, b :: rule in rules && rule.enabled && Watches(rule, subject, obs) && Judged(rule, subject, obs, b) ==>
      exists e :: e in events && e.rule == rule.id && e.subject == subject && e.breached == b
  }

  /** An evaluation samples exactly the subjects that enabled rules watch and that have a value. */
  lemma {:induction false} SamplesExactly(rules: seq<Rule>, obs: Observations, clock: Clock)
    ensures forall e :: e in Samples(rules, obs, clock) ==> Sampled(rules, obs, e)
    ensures SampledAll(rules, obs, Samples(rules, obs, clock))
  {
    hide MatchingSubjects, SubjectSamples, Watches, TakenOf, Judged;
    if rules != [] {
      var n := |rules| - 1;
      var rule := rules[n];
      var before, all := Samples(rules[..n], obs, clock), Samples(rules, obs, clock);
      SamplesExactly(rules[..n], obs, clock);
      RuleSampled(rule, obs, clock, |before|);
      forall e | e in all
        ensures Sampled(rules, obs, e)
      {
        if e in before {
          var r :| r in rules[..n] && r.enabled && Watches(r, e.subject, obs) && TakenOf(r, obs, e);
          assert r in rules;
        } else {
          assert rule in rules;
        }
      }
      assert rules == rules[..n] + [rule];
      assert forall e :: e in before ==> e in all;
    }
  }

  lemma RuleSampled(rule: Rule, obs: Observations, clock: Clock, base: nat)
    ensures var events := SubjectSamples(rule, MatchingSubjects(rule, obs), obs, clock, base);
            && (forall e :: e in events ==> Watches(rule, e.subject, obs) && TakenOf(rule, obs, e))
            && (forall subject, b :: Watches(rule, subject, obs) && Judged(rule, subject, obs, b) ==>
                  exists e :: e in events && e.rule == rule.id && e.subject == subject && e.breached == b)
  {
    hide MatchingSubjects, SubjectSamples, Watches, Judged;
    SubjectSampled(rule, MatchingSubjects(rule, obs), obs, clock, base);
    forall subject
      ensures subject in MatchingSubjects(rule, obs) <==> Watches(rule, subject, obs)
    {
      SubjectsAreWatched(rule, subject, obs);
    }
  }

  /** A missing sample leaves its chain alone: it neither advances nor resets the streak. */
  lemma MissingIsNeutral(rules: seq<Rule>, obs: Observations, clock: Clock, h: seq<Event>, rule: Rule, subject: string)
    requires rule in rules && (forall r :: r in rules ==> '|' !in r.id && (r.id == rule.id ==> r == rule))
    requires forall b :: !Judged(rule, subject, obs, b)
    ensures Of(h + Samples(rules, obs, clock), Key(rule.id, subject)) == Of(h, Key(rule.id, subject))
  {
    hide Samples, Of, Key, Judged, Watches, SampledAll;
    var key := Key(rule.id, subject);
    var added := Samples(rules, obs, clock);
    SamplesExactly(rules, obs, clock);
    forall e | e in added
      ensures KeyOf(e) != key
    {
      var r :| r in rules && r.enabled && Watches(r, e.subject, obs) && TakenOf(r, obs, e);
      if KeyOf(e) == key {
        KeysAreDistinct(e.rule, e.subject, rule.id, subject);
      }
    }
    OfOthers(h, added, key);
  }

  lemma {:induction false} OfOthers(h: seq<Event>, added: seq<Event>, key: string)
    requires forall e :: e in added ==> KeyOf(e) != key
    ensures Of(h + added, key) == Of(h, key)
  {
    hide Of, KeyOf;
    if added == [] {
      assert h + added == h;
    } else {
      var n := |added| - 1;
      OfOthers(h, added[..n], key);
      OfPush(h + added[..n], added[n], key);
      assert h + added == h + added[..n] + [added[n]];
    }
  }

  function Without(h: seq<Event>, id: Id): (r: seq<Event>)
    ensures forall e :: e in r <==> e in h && e.rule != id
  {
    if h == [] then []
    else
      var before := Without(h[..|h| - 1], id);
      var e := h[|h| - 1];
      assert h == h[..|h| - 1] + [e];
      if e.rule != id then before + [e] else before
  }

  lemma {:induction false} WithoutOrdered(h: seq<Event>, id: Id)
    requires Ordered(h)
    ensures Ordered(Without(h, id))
  {
    if h != [] {
      hide Ordered;
      OrderedLast(h);
      WithoutOrdered(h[..|h| - 1], id);
      OrderedPush(Without(h[..|h| - 1], id), h[|h| - 1]);
    }
  }

  /** Dropping the keys with a rule's prefix forgets that rule's chains and no other. */
  lemma {:induction false} DeletedChains(h: seq<Event>, id: Id, key: string)
    requires '|' !in id && forall e :: e in h ==> '|' !in e.rule
    ensures Of(Without(h, id), key) == if StartsWith(key, id + "|") then [] else Of(h, key)
  {
    hide StartsWith, Of, Key;
    if h == [] {
      assert Of([], key) == [] by {
        OfNothing(key);
      }
    } else {
      var n := |h| - 1;
      var e := h[n];
      DeletedChains(h[..n], id, key);
      assert h == h[..n] + [e];
      OfPush(h[..n], e, key);
      PrefixTellsRule(e.rule, e.subject, id);
      OfPush(Without(h[..n], id), e, key);
    }
  }

  lemma OfNothing(key: string)
    ensures Of([], key) == []
  {
  }

  /** A listing of the store, in any order. */
  ghost predicate Lists(listed: seq<Rule>, rules: map<Id, Rule>) {
    forall rule :: rule in listed <==> rule.id in rules && rules[rule.id] == rule
  }

  lemma ListedIds(listed: seq<Rule>, rules: map<Id, Rule>)
    requires Lists(listed, rules) && forall id :: id in rules ==> rules[id].id == id && '|' !in id
    ensures forall i :: 0 <= i < |listed| ==> '|' !in listed[i].id
  {
    forall i | 0 <= i < |listed|
      ensures '|' !in listed[i].id
    {
      assert listed[i] in listed;
    }
  }

  ghost predicate UpTo(h: seq<Event>, now: Time) {
    forall e :: e in h ==> e.stamp <= now
  }

  /** What recording a sample has to do to the table, and whether it fires. */
  lemma RecordFits(breach: map<string, Breach>, h: seq<Event>, e: Event)
    requires BreachFits(breach, h) && Ordered(h) && e.at <= e.stamp && forall x :: x in h ==> x.stamp <= e.at
    ensures var b := Entry(breach, KeyOf(e));
            && (b.lastFiredAt.Some? ==> b.lastFiredAt.value <= e.at)
            && BreachFits(breach[KeyOf(e) := Step(b, e)], h + [e])
            && (LatestFires(h + [e]) <==> Decide(b, e))
    ensures Ordered(h + [e])
  {
    hide Of, Chain, FiredAt, LatestFires, FireCount, Decide, Step, KeyOf;
    var chain := Of(h, KeyOf(e));
    OfOrdered(h, KeyOf(e));
    LastFireIsLatest(chain);
    BreachStep(breach, h, e);
    LatestDecides(h, e);
    OrderedPush(h, e);
    var last := Chain(chain).lastFiredAt;
    if last.Some? {
      var j :| 0 <= j < |chain| && FiredAt(chain, j) && chain[j].stamp == last.value;
      assert chain[j] in h;
    }
  }

  lemma DeleteFits(breach: map<string, Breach>, h: seq<Event>, id: Id)
    requires BreachFits(breach, h) && '|' !in id && forall e :: e in h ==> '|' !in e.rule
    ensures BreachFits(map key | key in breach && !StartsWith(key, id + "|") :: breach[key], Without(h, id))
  {
    hide Chain, Of, StartsWith;
    var after := map key | key in breach && !StartsWith(key, id + "|") :: breach[key];
    EmptyChain();
    forall key
      ensures Entry(after, key) == Chain(Of(Without(h, id), key))
    {
      DeletedChains(h, id, key);
      assert Entry(breach, key) == Chain(Of(h, key));
    }
  }

  class AlertService {
    var rules: map<Id, Rule>
    var breach: map<string, Breach>
    /** The samples recorded since the process started, without those of deleted rules. */
    ghost var history: seq<Event>

    ghost predicate Valid()
      reads this
    {
      && Ordered(history) && BreachFits(breach, history)
      && (forall e :: e in history ==> '|' !in e.rule)
      && (forall id :: id in rules ==> rules[id].id == id && '|' !in id)
    }

    /** A restart forgets every streak. */
    constructor (rules: map<Id, Rule>)
      requires forall id :: id in rules ==> rules[id].id == id && '|' !in id
      ensures Valid() && this.rules == rules && history == [] && breach == map[]
    {
      this.rules, breach, history := rules, map[], [];
    }

    /** Record one sample; the notification goes out exactly when the chain's own history says so. */
    method RecordAndMaybeFire(rule: Rule, subject: string, value: real, now: Time, stamp: Time) returns (fired: bool)
      requires Valid() && '|' !in rule.id
      requires UpTo(history, now) && now <= stamp
      modifies this`breach, this`history
      ensures Valid()
      ensures history == old(history) + [EventOf(rule, subject, value, now, stamp)]
      ensures fired <==> LatestFires(history)
    {
      ghost var e := EventOf(rule, subject, value, now, stamp);
      hide Of, Chain, FiredAt, BreachFits, LatestFires, FireCount, CooldownElapsed, Ordered, Key;
      RecordFits(breach, history, e);
      var key := Key(rule.id, subject);
      var breached := value >= rule.threshold;
      var entry := Entry(breach, key);
      history := history + [e];
      if !breached {
        breach := breach[key := entry.(ticks := 0)];
        return false;
      }
      entry := entry.(ticks := (entry.ticks + 1) % WORD);
      if entry.ticks < (if rule.sustainTicks < 1 then 1 else rule.sustainTicks) {
        breach := breach[key := entry];
        return false;
      }
      if entry.lastFiredAt.Some? {
        if !CooldownElapsed(entry.lastFiredAt.value, now, rule.cooldownSecs) {
          breach := breach[key := entry];
          return false;
        }
      }
      entry := entry.(lastFiredAt := Some(stamp));
      breach := breach[key := entry];
      return true;
    }

    /** One pass over the listed rules, in any order: every enabled rule samples its subjects in turn, reading the clock
        anew for each, and the result is the number of notifications sent. */
    method Evaluate(listed: seq<Rule>, obs: Observations, clock: Clock) returns (r: Result<nat, AppError>)
      requires Valid() && Ticking(clock)
      requires Lists(listed, rules)
      requires UpTo(history, clock(0))
      modifies this`breach, this`history
      ensures Valid()
      ensures r.Err? ==> breach == old(breach) && history == old(history)
      ensures r.Ok? ==> history == old(history) + Samples(listed, obs, clock)
      ensures r.Ok? ==> FireCount(history) == FireCount(old(history)) + r.value
    {
      ListedIds(listed, rules);
      hide *;
      var read: bool := *;
      if !read {
        return Err(Internal);
      }
      var fired, taken := 0, 0;
      ghost var added: seq<Event> := [];
      SamplesFrom(listed, obs, clock, 0);
      for i := 0 to |listed|
        invariant Valid() && taken == |added| && UpTo(history, clock(2 * taken))
        invariant added == Samples(listed[..i], obs, clock) && history == old(history) + added
        invariant FireCount(history) == FireCount(old(history)) + fired
      {
        SamplesFrom(listed, obs, clock, i);
        if listed[i].enabled {
          ghost var more := SubjectSamples(listed[i], MatchingSubjects(listed[i], obs), obs, clock, taken);
          var n, k := EvaluateRule(listed[i], obs, clock, taken);
          Assoc(old(history), added, more);
          added := added + more;
          taken := taken + k;
          fired := fired + n;
        }
      }
      assert listed[..|listed|] == listed;
      return Ok(fired);
    }

    method EvaluateRule(rule: Rule, obs: Observations, clock: Clock, base: nat)
      returns (fired: nat, taken: nat)
      requires Valid() && '|' !in rule.id && Ticking(clock)
      requires UpTo(history, clock(2 * base))
      modifies this`breach, this`history
      ensures Valid()
      ensures var added := SubjectSamples(rule, MatchingSubjects(rule, obs), obs, clock, base);
              history == old(history) + added && taken == |added| && UpTo(history, clock(2 * (base + taken)))
      ensures FireCount(history) == FireCount(old(history)) + fired
    {
      hide *;
      var subjects := MatchingSubjects(rule, obs);
      fired, taken := 0, 0;
      ghost var added: seq<Event> := [];
      SubjectSamplesFrom(rule, subjects, obs, clock, base, 0);
      for i := 0 to |subjects|
        invariant Valid() && taken == |added| && UpTo(history, clock(2 * (base + taken)))
        invariant added == SubjectSamples(rule, subjects[..i], obs, clock, base) && history == old(history) + added
        invariant FireCount(history) == FireCount(old(history)) + fired
      {
        SubjectSamplesFrom(rule, subjects, obs, clock, base, i);
        var value := Observe(rule, subjects[i], obs);
        if value.None? {
          continue;
        }
        ghost var before := history;
        Readings(clock, base + taken);
        LatestDecides(history, SampleOf(rule, subjects[i], value.value, clock, base + taken));
        SampleTimes(rule, subjects[i], value.value, clock, base + taken);
        var fires := RecordAndMaybeFire(rule, subjects[i], value.value, clock(2 * (base + taken)), clock(2 * (base + taken) + 1));
        UpToPush(before, clock, base + taken, history[|before|]);
        Assoc(old(history), added, [history[|before|]]);
        added := added + [history[|before|]];
        taken := taken + 1;
        if fires {
          fired := fired + 1;
        }
      }
      assert subjects[..|subjects|] == subjects;
    }

    /** Delete a rule and forget its chains; every other chain keeps its state. */
    method Delete(id: Id) returns (r: Result<bool, AppError>)
      requires Valid() && '|' !in id
      modifies this
      ensures Valid()
      ensures r.Ok? ==> r.value == (id in old(rules)) && rules == old(rules) - {id}
      ensures r.Err? ==> rules == old(rules)
      ensures history == if r == Ok(true) then Without(old(history), id) else old(history)
    {
      var ok: bool := *;
      if !ok {
        return Err(Internal);
      }
      var deleted := id in rules;
      rules := rules - {id};
      if deleted {
        hide BreachFits, Ordered, StartsWith;
        WithoutOrdered(history, id);
        DeleteFits(breach, history, id);
        breach := map key | key in breach && !StartsWith(key, id + "|") :: breach[key];
        history := Without(history, id);
      }
      return Ok(deleted);
    }
  }

  lemma Readings(clock: Clock, k: nat)
    requires Ticking(clock)
    ensures clock(2 * k) <= clock(2 * k + 1) <= clock(2 * (k + 1))
  {
  }

  lemma SampleTimes(rule: Rule, subject: string, value: real, clock: Clock, k: nat)
    ensures SampleOf(rule, subject, value, clock, k) == EventOf(rule, subject, value, clock(2 * k), clock(2 * k + 1))
    ensures SampleOf(rule, subject, value, clock, k).stamp == clock(2 * k + 1)
  {
  }

  lemma UpToPush(h: seq<Event>, clock: Clock, k: nat, e: Event)
    requires UpTo(h, clock(2 * k)) && Ticking(clock) && e.stamp == clock(2 * k + 1)
    ensures UpTo(h + [e], clock(2 * (k + 1)))
  {
    Readings(clock, k);
  }

  lemma SamplesFrom(rules: seq<Rule>, obs: Observations, clock: Clock, n: nat)
    requires n <= |rules|
    ensures n == 0 ==> Samples(rules[..n], obs, clock) == []
    ensures n < |rules| ==>
              var before := Samples(rules[..n], obs, clock);
              Samples(rules[..n + 1], obs, clock) ==
              if rules[n].enabled
              then before + SubjectSamples(rules[n], MatchingSubjects(rules[n], obs), obs, clock, |before|)
              else before
  {
    hide SubjectSamples, MatchingSubjects;
    if n < |rules| {
      assert rules[..n + 1][..n] == rules[..n];
    }
  }

  lemma SubjectSamplesFrom(rule: Rule, subjects: seq<string>, obs: Observations, clock: Clock, base: nat, n: nat)
    requires n <= |subjects|
    ensures n == 0 ==> SubjectSamples(rule, subjects[..n], obs, clock, base) == []
    ensures n < |subjects| ==>
              var value := Observe(rule, subjects[n], obs);
              var before := SubjectSamples(rule, subjects[..n], obs, clock, base);
              SubjectSamples(rule, subjects[..n + 1], obs, clock, base)
              == if value.Some? then before + [SampleOf(rule, subjects[n], value.value, clock, base + |before|)] else before
  {
    hide Observe, SampleOf;
    if n < |subjects| {
      assert subjects[..n + 1][..n] == subjects[..n];
    }
  }
}

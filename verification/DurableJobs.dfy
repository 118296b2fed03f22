/** Which durable job runs next: Stop first, then by priority, where waiting raises
    the priority until only earlier jobs can go ahead; and how often they can, within
    one process. Times in nanoseconds. */
module DurableJobs {
  import opened Sorting

  const SECOND: int := 1000000000
  const MINUTE: int := 60 * SECOND
  const DAY: int := 24 * 60 * MINUTE
  const MAX_ATTEMPTS: nat := 3

  datatype Kind = Stop | Resume | NodeApply | DnsApply | NodeCheck | Check | Select | Auto | OtherKind

  datatype JobState = Queued | Interrupted | Running | Finished

  // `cursor` of the job's nodes or services are done.
  datatype Job = Job(
    id: nat, kind: Kind, nodes: nat, catalogue: bool, services: nat, state: JobState,
    createdAt: int, expiresAt: int, notBefore: int, attempts: nat, cursor: nat)

  function BasePriority(j: Job): int {
    match j.kind
    case Stop => 0
    case Resume => 1
    case NodeApply => 1
    case DnsApply => 1
    case NodeCheck => if j.nodes > 1 || j.catalogue then 4 else 2
    case Check => if j.services > 1 then 4 else 2
    case Auto => if j.services > 1 then 4 else 2
    case Select => 2
    case OtherKind => 2
  }

  /** Stop is always 0; any other job gains one step for two minutes of waiting, at
      most three, and never passes 1. */
  function Priority(j: Job, now: int): int {
    if j.kind.Stop? then 0
    else if now > j.createdAt then
      var waited := (now - j.createdAt) / (2 * MINUTE);
      var gain := if waited < 3 then waited else 3;
      if BasePriority(j) - gain > 1 then BasePriority(j) - gain else 1
    else BasePriority(j)
  }

  lemma PriorityRange(j: Job, now: int)
    ensures Priority(j, now) == 0 <==> j.kind.Stop?
    ensures 0 <= Priority(j, now) <= 4
    ensures !j.kind.Stop? && now - j.createdAt >= 6 * MINUTE ==> Priority(j, now) == 1
  {
  }

  /** The priorities over time: a check of several items goes from 4 to 1 in six minutes,
      one of a single item from 2 to 1 in two, and what the owner asked for is at 1. */
  lemma PriorityExactly(j: Job, now: int)
    requires !j.kind.Stop?
    ensures var waited := now - j.createdAt;
            var several :=
              || (j.kind.NodeCheck? && (j.nodes >= 2 || j.catalogue))
              || ((j.kind.Check? || j.kind.Auto?) && j.services >= 2);
            Priority(j, now) ==
            if j.kind.Resume? || j.kind.NodeApply? || j.kind.DnsApply? || waited >= 6 * MINUTE then 1
            else if several then (if waited < 2 * MINUTE then 4 else if waited < 4 * MINUTE then 3 else 2)
            else if waited < 2 * MINUTE then 2 else 1
  {
  }

  /** Waiting never makes a job less urgent. */
  lemma WaitingOnlyHelps(j: Job, now: int, later: int)
    requires now <= later
    ensures Priority(j, later) <= Priority(j, now)
  {
  }

  predicate Runnable(j: Job, now: int, recoveryDue: bool) {
    (j.state.Queued? || j.state.Interrupted?) && now >= j.notBefore && !(j.kind.NodeCheck? && recoveryDue)
  }

  // (CreatedAt, ID): the order of acceptance.
  predicate Earlier(a: Job, b: Job) {
    a.createdAt < b.createdAt || (a.createdAt == b.createdAt && a.id < b.id)
  }

  predicate Before(a: Job, b: Job, now: int) {
    Priority(a, now) < Priority(b, now) || (Priority(a, now) == Priority(b, now) && Earlier(a, b))
  }

  /** At one moment the selection order is a strict total order on distinct ids. */
  lemma BeforeIsTotal(a: Job, b: Job, c: Job, now: int)
    ensures !(Before(a, b, now) && Before(b, a, now))
    ensures a.id != b.id ==> Before(a, b, now) || Before(b, a, now)
    ensures Before(a, b, now) && Before(b, c, now) ==> Before(a, c, now)
  {
  }

  /** -1 exactly when nothing is runnable; otherwise the first of the least runnable
      jobs by (priority, CreatedAt, ID). */
  method SelectDurableServiceJob(jobs: seq<Job>, now: int, recoveryDue: bool) returns (index: int)
    ensures -1 <= index < |jobs|
    ensures index == -1 <==> forall i :: 0 <= i < |jobs| ==> !Runnable(jobs[i], now, recoveryDue)
    ensures index >= 0 ==> Runnable(jobs[index], now, recoveryDue)
    ensures index >= 0 ==>
        forall i :: 0 <= i < |jobs| && Runnable(jobs[i], now, recoveryDue) ==> !Before(jobs[i], jobs[index], now)
    ensures index >= 0 ==>
        forall i :: 0 <= i < index && Runnable(jobs[i], now, recoveryDue) ==> Before(jobs[index], jobs[i], now)
  {
    index := -1;
    for i := 0 to |jobs|
      invariant -1 <= index < i
      invariant index == -1 ==> forall j :: 0 <= j < i ==> !Runnable(jobs[j], now, recoveryDue)
      invariant index >= 0 ==> Runnable(jobs[index], now, recoveryDue)
      invariant index >= 0 ==>
          forall j :: 0 <= j < i && Runnable(jobs[j], now, recoveryDue) ==> !Before(jobs[j], jobs[index], now)
      invariant index >= 0 ==>
          forall j :: 0 <= j < index && Runnable(jobs[j], now, recoveryDue) ==> Before(jobs[index], jobs[j], now)
    {
      var job := jobs[i];
      if (!job.state.Queued? && !job.state.Interrupted?) || now < job.notBefore {
        continue;
      }
      if job.kind.NodeCheck? && recoveryDue {
        continue;
      }
      if index < 0 {
        index := i;
        continue;
      }
      var best := jobs[index];
      var priority, bestPriority := Priority(job, now), Priority(best, now);
      if priority < bestPriority
         || (priority == bestPriority && job.createdAt < best.createdAt)
         || (priority == bestPriority && job.createdAt == best.createdAt && job.id < best.id) {
        index := i;
      }
    }
  }

  ghost predicate Selected(jobs: seq<Job>, now: int, recoveryDue: bool, chosen: Job) {
    && chosen in jobs && Runnable(chosen, now, recoveryDue)
    && forall j :: j in jobs && Runnable(j, now, recoveryDue) ==> !Before(j, chosen, now)
  }

  /** A runnable Stop is never kept waiting by anything but another Stop. */
  lemma StopGoesFirst(jobs: seq<Job>, now: int, recoveryDue: bool, chosen: Job, stop: Job)
    requires Selected(jobs, now, recoveryDue, chosen)
    requires stop in jobs && stop.kind.Stop? && Runnable(stop, now, recoveryDue)
    ensures chosen.kind.Stop? && (chosen == stop || !Earlier(stop, chosen))
  {
  }

  /** After six minutes only a Stop or an earlier job can go ahead. */
  lemma OnlyEarlierJobsPassAnAgedOne(jobs: seq<Job>, now: int, recoveryDue: bool, chosen: Job, waiting: Job)
    requires Selected(jobs, now, recoveryDue, chosen)
    requires waiting in jobs && Runnable(waiting, now, recoveryDue) && now - waiting.createdAt >= 6 * MINUTE
    ensures chosen == waiting || chosen.kind.Stop? || !Earlier(waiting, chosen)
  {
  }

  // ---- what becomes of the job that runs ----

  /** Jobs of several items are put back between them. */
  predicate Batched(j: Job) {
    j.kind.NodeCheck? || j.kind.Check? || j.kind.Select?
  }

  function Total(j: Job): nat {
    if j.kind.NodeCheck? then j.nodes else j.services
  }

  function Remaining(j: Job): nat {
    if Batched(j) && j.cursor < Total(j) then Total(j) - j.cursor else 1
  }

  lemma RemainingExactly(j: Job)
    ensures j.kind.NodeCheck? && j.cursor < j.nodes ==> Remaining(j) == j.nodes - j.cursor
    ensures (j.kind.Check? || j.kind.Select?) && j.cursor < j.services ==> Remaining(j) == j.services - j.cursor
    ensures !j.kind.NodeCheck? && !j.kind.Check? && !j.kind.Select? ==> Remaining(j) == 1
  {
  }

  predicate Waiting(j: Job) {
    j.state.Queued? || j.state.Interrupted?
  }

  /** What the store of the jobs accepts. */
  predicate ValidJob(j: Job) {
    && j.attempts <= MAX_ATTEMPTS && j.createdAt < j.expiresAt <= j.createdAt + DAY
    && j.services <= 64 && j.nodes <= (if j.catalogue then 512 else 64)
    && (Batched(j) ==> j.cursor <= Total(j))
  }

  // Busy: the gate admitted nothing. Interrupted: the process is ending.
  datatype Outcome = Busy | Ended | Interruption | NetworkChanged | Advanced(items: nat)

  /** Expired, from the future, or out of attempts: it fails instead of running. */
  predicate Over(j: Job, now: int) {
    now >= j.expiresAt || now < j.createdAt - MINUTE || j.attempts >= MAX_ATTEMPTS
  }

  predicate OutcomeOK(j: Job, now: int, o: Outcome) {
    && (Over(j, now) ==> o.Ended?)
    && (o.NetworkChanged? ==> j.kind.NodeCheck?)
    && (o.Advanced? ==> Batched(j) && o.items > 0)
  }

  /** The job after its turn: finished, or put back with its acceptance time. */
  function Dispatched(j: Job, now: int, finished: int, o: Outcome): Job {
    if Over(j, now) then j.(state := Finished)
    else
      match o
      case Busy => j.(state := Queued, notBefore := finished + 5 * SECOND)
      case Ended => j.(state := Finished)
      case Interruption => j.(state := Interrupted, attempts := j.attempts + 1)
      case NetworkChanged =>
        if j.attempts + 1 < MAX_ATTEMPTS
        then j.(state := Queued, attempts := j.attempts + 1,
                notBefore := finished + (if j.attempts == 0 then 30 else 60) * SECOND)
        else j.(state := Finished)
      case Advanced(items) =>
        if j.cursor + items >= Total(j) then j.(state := Finished)
        else j.(state := Queued, cursor := j.cursor + items, notBefore := finished + SECOND,
                attempts := if j.kind.NodeCheck? then 0 else j.attempts)
  }

  /** A turn keeps what the job is and when it was accepted. An expired job, one from the
      future and one without attempts fails; an interruption costs an attempt. */
  lemma TurnKeepsTheJob(j: Job, now: int, finished: int, o: Outcome)
    ensures var k := Dispatched(j, now, finished, o);
            && k.id == j.id && k.kind == j.kind && k.createdAt == j.createdAt && k.expiresAt == j.expiresAt
            && (now >= j.expiresAt || now < j.createdAt - MINUTE || j.attempts >= 3 ==> k == j.(state := Finished))
            && (j.createdAt - MINUTE <= now < j.expiresAt && j.attempts < 3 && o.Interruption? ==>
                  k == j.(state := Interrupted, attempts := j.attempts + 1))
  {
  }

  /** How often a job may still be started while the gate is free: a service for each
      start, a node for each three. */
  function Starts(j: Job): nat {
    if j.attempts >= MAX_ATTEMPTS then 1
    else if j.kind.NodeCheck? then 3 * (Remaining(j) - 1) + MAX_ATTEMPTS - j.attempts
    else Remaining(j)
  }

  /** How often the gate may still be busy for it before it expires: every five seconds. */
  function BusyLeft(j: Job, since: int): nat {
    var from := if j.notBefore > since then j.notBefore else since;
    if from >= j.expiresAt then 0 else (j.expiresAt - from + 5 * SECOND - 1) / (5 * SECOND)
  }

  lemma {:induction false} StartsAreFew(j: Job)
    ensures 1 <= Starts(j) <= if j.kind.NodeCheck? then 3 * Remaining(j) else Remaining(j)
    ensures ValidJob(j) ==> Starts(j) <= 3 * 512
  {
  }

  /** A turn with a free gate spends a start; a busy one does not, and ends five
      seconds later at the earliest. */
  lemma {:induction false} TurnSpends(j: Job, now: int, finished: int, o: Outcome, since: int)
    requires Waiting(j) && since <= now && j.notBefore <= now <= finished && OutcomeOK(j, now, o) && !o.Interruption?
    ensures var k := Dispatched(j, now, finished, o);
            k.state.Finished? || if o.Busy? then Starts(k) == Starts(j) && BusyLeft(k, since) < BusyLeft(j, since)
                                 else Starts(k) < Starts(j) && BusyLeft(k, since) <= BusyLeft(j, since)
    ensures o.Busy? ==> BusyLeft(j, since) > 0
  {
    var k := Dispatched(j, now, finished, o);
    if !k.state.Finished? {
      var from := if j.notBefore > since then j.notBefore else since;
      if k.notBefore < k.expiresAt {
        FewerPeriods(j.expiresAt - from, j.expiresAt - k.notBefore);
      }
    }
  }

  lemma {:induction false} FewerPeriods(a: int, b: int)
    requires a >= b > 0
    ensures (a + 5 * SECOND - 1) / (5 * SECOND) >= (b + 5 * SECOND - 1) / (5 * SECOND)
    ensures a >= b + 5 * SECOND ==> (a + 5 * SECOND - 1) / (5 * SECOND) > (b + 5 * SECOND - 1) / (5 * SECOND)
  {
  }

  // ---- a run of selections in one process ----

  datatype Turn = Turn(jobs: seq<Job>, now: int, recoveryDue: bool, chosen: Job, finished: int, outcome: Outcome)

  // A job is told by its identifier and its acceptance.
  type Key = (nat, int)

  function KeyOf(j: Job): Key {
    (j.id, j.createdAt)
  }

  ghost predicate TurnOK(t: Turn) {
    && Selected(t.jobs, t.now, t.recoveryDue, t.chosen)
    && t.now <= t.finished && OutcomeOK(t.chosen, t.now, t.outcome)
    && (forall j, k :: j in t.jobs && k in t.jobs && j.id == k.id ==> j == k)
  }

  function AfterTurn(t: Turn, j: Job): Job {
    if j == t.chosen then Dispatched(j, t.now, t.finished, t.outcome) else j
  }

  /** A job of the next queue was there, as its turn left it or canceled since, or it was
      accepted since. */
  ghost predicate CameFrom(t: Turn, k: Job) {
    k.createdAt >= t.now ||
      exists j :: j in t.jobs && (k == AfterTurn(t, j) || k == AfterTurn(t, j).(state := Finished))
  }

  // An interrupted process selects nothing more.
  ghost predicate Follows(t: Turn, u: Turn) {
    t.finished <= u.now && !t.outcome.Interruption? && forall k :: k in u.jobs ==> CameFrom(t, k)
  }

  ghost predicate IsRun(turns: seq<Turn>) {
    |turns| > 0 ==>
      && TurnOK(turns[0])
      && (|turns| > 1 ==> Follows(turns[0], turns[1]) && IsRun(turns[1..]))
  }

  ghost predicate Waits(t: Turn, waiting: Job) {
    && KeyOf(t.chosen) != KeyOf(waiting)
    && exists w :: w in t.jobs && KeyOf(w) == KeyOf(waiting) && Runnable(w, t.now, t.recoveryDue)
  }

  /** An aged job is runnable at every turn, and another job is chosen. */
  ghost predicate KeepsWaiting(turns: seq<Turn>, waiting: Job) {
    && IsRun(turns) && |turns| > 0
    && turns[0].now - waiting.createdAt >= 6 * MINUTE
    && forall t :: t in turns ==> Waits(t, waiting)
  }

  function IsFree(): Outcome -> bool {
    (o: Outcome) => !o.Busy?
  }

  function IsBusy(): Outcome -> bool {
    (o: Outcome) => o.Busy?
  }

  function PassedIn(t: Turn, which: Outcome -> bool): seq<Key> {
    if !t.chosen.kind.Stop? && which(t.outcome) then [KeyOf(t.chosen)] else []
  }

  /** The jobs that went ahead with these outcomes, Stop apart. */
  function PassedBy(turns: seq<Turn>, which: Outcome -> bool): seq<Key> {
    if |turns| == 0 then [] else PassedIn(turns[0], which) + PassedBy(turns[1..], which)
  }

  // The jobs, besides Stop, that wait and were accepted no later.
  function IsEarlier(waiting: Job): Job -> bool {
    (j: Job) => Waiting(j) && !j.kind.Stop? && KeyOf(j) != KeyOf(waiting) && !Earlier(waiting, j)
  }

  function EarlierJobs(jobs: seq<Job>, waiting: Job): seq<Job> {
    Filter(IsEarlier(waiting), jobs)
  }

  function Sum(w: Job -> nat, s: seq<Job>): nat {
    if |s| == 0 then 0 else w(s[0]) + Sum(w, s[1..])
  }

  // ---- every job passes as often as it may still be started ----

  ghost predicate SpendsAt(w: Job -> nat, which: Outcome -> bool, since: int, j: Job, now: int, finished: int,
                           o: Outcome) {
    Waiting(j) && since <= now && j.notBefore <= now <= finished && OutcomeOK(j, now, o) ==>
      && (which(o) ==> w(j) > 0)
      && var k := Dispatched(j, now, finished, o);
         (k.state.Finished? || o.Interruption? || w(k) + (if which(o) then 1 else 0) <= w(j))
  }

  // w is spent by the turns of one kind, and never grows.
  ghost predicate Spends(w: Job -> nat, which: Outcome -> bool, since: int) {
    forall j, now, finished, o :: SpendsAt(w, which, since, j, now, finished, o)
  }

  // The job in the next queue, if it still waits there.
  lemma {:induction false} Successor(t: Turn, u: Turn, j: Job, k: Job)
    requires TurnOK(t) && Follows(t, u) && j in t.jobs && j.createdAt < t.now
    requires k in u.jobs && KeyOf(k) == KeyOf(j) && Waiting(k)
    ensures k == AfterTurn(t, j)
  {
    assert CameFrom(t, k);
    var i :| i in t.jobs && (k == AfterTurn(t, i) || k == AfterTurn(t, i).(state := Finished));
    assert KeyOf(i) == KeyOf(j) && i == j;
  }

  lemma {:induction false} GoneNeverPasses(turns: seq<Turn>, x: Key, which: Outcome -> bool)
    requires IsRun(turns) &&
        (|turns| > 0 ==> x.1 < turns[0].now && forall k :: k in turns[0].jobs && KeyOf(k) == x ==> !Waiting(k))
    ensures x !in PassedBy(turns, which)
    decreases |turns|
  {
    if |turns| > 1 {
      forall k | k in turns[1].jobs && KeyOf(k) == x ensures !Waiting(k) {
        assert CameFrom(turns[0], k);
      }
      GoneNeverPasses(turns[1..], x, which);
    }
  }

  lemma {:induction false} CountInFront(t: Turn, s: seq<Key>, x: Key, which: Outcome -> bool)
    ensures multiset(PassedIn(t, which) + s)[x] ==
            multiset(s)[x] + if !t.chosen.kind.Stop? && which(t.outcome) && KeyOf(t.chosen) == x then 1 else 0
  {
  }

  ghost predicate StillWaits(u: Turn, x: Key) {
    exists k :: k in u.jobs && KeyOf(k) == x && Waiting(k)
  }

  lemma {:induction false} PassesOfOne(turns: seq<Turn>, j: Job, w: Job -> nat, which: Outcome -> bool, since: int)
    requires Spends(w, which, since) && IsRun(turns) && |turns| > 0 && since <= turns[0].now
    requires j in turns[0].jobs && Waiting(j) && j.createdAt < turns[0].now
    ensures multiset(PassedBy(turns, which))[KeyOf(j)] <= w(j)
    decreases |turns|
  {
    var t, rest := turns[0], turns[1..];
    CountInFront(t, PassedBy(rest, which), KeyOf(j), which);
    SpentByOne(t, j, w, which, since);
    if |rest| > 0 && StillWaits(rest[0], KeyOf(j)) {
      var k :| k in rest[0].jobs && KeyOf(k) == KeyOf(j) && Waiting(k);
      Successor(t, rest[0], j, k);
      PassesOfOne(rest, k, w, which, since);
    } else if |rest| > 0 {
      GoneNeverPasses(rest, KeyOf(j), which);
    }
  }

  // What a turn spends of a job, whether or not it is the one chosen.
  lemma {:induction false} SpentByOne(t: Turn, j: Job, w: Job -> nat, which: Outcome -> bool, since: int)
    requires Spends(w, which, since) && TurnOK(t) && since <= t.now && j in t.jobs && Waiting(j)
    ensures KeyOf(t.chosen) == KeyOf(j) ==> t.chosen == j && (which(t.outcome) ==> w(j) > 0)
    ensures var k := AfterTurn(t, j);
            Waiting(k) && !t.outcome.Interruption? ==>
              w(k) + (if which(t.outcome) && KeyOf(t.chosen) == KeyOf(j) then 1 else 0) <= w(j)
  {
    assert SpendsAt(w, which, since, j, t.now, t.finished, t.outcome);
  }

  // ---- and all of them together ----

  function Other<T(==)>(x: T): T -> bool {
    y => y != x
  }

  lemma {:induction false} WithoutOne<T(!new)>(s: seq<T>, x: T)
    ensures |s| == multiset(s)[x] + |Filter(Other(x), s)|
    ensures forall y :: y != x ==> multiset(Filter(Other(x), s))[y] == multiset(s)[y]
  {
    if |s| > 0 {
      assert s == [s[0]] + s[1..];
      WithoutOne(s[1..], x);
    }
  }

  lemma {:induction false} CountByJobs(s: seq<Key>, jobs: seq<Job>, w: Job -> nat)
    requires forall x :: x in s ==> exists j :: j in jobs && KeyOf(j) == x
    requires forall j :: j in jobs ==> multiset(s)[KeyOf(j)] <= w(j)
    ensures |s| <= Sum(w, jobs)
    decreases |jobs|
  {
    if |s| > 0 {
      assert s[0] in s;
      var first :| first in jobs && KeyOf(first) == s[0];
      var x := KeyOf(jobs[0]);
      var r := Filter(Other(x), s);
      WithoutOne(s, x);
      FilterMembers(Other(x), s);
      forall y | y in r ensures exists j :: j in jobs[1..] && KeyOf(j) == y {
        assert Other(x)(y) && y in s;
        var j :| j in jobs && KeyOf(j) == y;
        assert j in jobs[1..];
      }
      forall j | j in jobs[1..] ensures multiset(r)[KeyOf(j)] <= w(j) {
        assert j in jobs;
        if KeyOf(j) == x {
          assert !Other(x)(x) && x !in r;
        }
      }
      CountByJobs(r, jobs[1..], w);
    }
  }

  // In one turn, and from the queue of the turn before.
  lemma {:induction false} PasserIsEarlier(t: Turn, waiting: Job)
    requires TurnOK(t) && Waits(t, waiting) && t.now - waiting.createdAt >= 6 * MINUTE && !t.chosen.kind.Stop?
    ensures t.chosen in EarlierJobs(t.jobs, waiting)
  {
    var w :| w in t.jobs && KeyOf(w) == KeyOf(waiting) && Runnable(w, t.now, t.recoveryDue);
    OnlyEarlierJobsPassAnAgedOne(t.jobs, t.now, t.recoveryDue, t.chosen, w);
    FilterMembers(IsEarlier(waiting), t.jobs);
    assert IsEarlier(waiting)(t.chosen);
  }

  lemma {:induction false} EarlierComesFromEarlier(t: Turn, u: Turn, waiting: Job, k: Job) returns (j: Job)
    requires TurnOK(t) && Follows(t, u) && t.now - waiting.createdAt >= 6 * MINUTE
    requires k in EarlierJobs(u.jobs, waiting)
    ensures j in EarlierJobs(t.jobs, waiting) && KeyOf(j) == KeyOf(k)
  {
    FilterMembers(IsEarlier(waiting), u.jobs);
    FilterMembers(IsEarlier(waiting), t.jobs);
    assert IsEarlier(waiting)(k) && CameFrom(t, k);
    j :| j in t.jobs && (k == AfterTurn(t, j) || k == AfterTurn(t, j).(state := Finished));
    assert Waiting(j);
    assert IsEarlier(waiting)(j);
  }

  /** While an aged job waits, every other job chosen ahead of it is a Stop or one of the
      earlier jobs that were there when it had aged. */
  lemma {:induction false} PassersAreEarlier(turns: seq<Turn>, waiting: Job, which: Outcome -> bool, x: Key)
    returns (j: Job)
    requires KeepsWaiting(turns, waiting) && x in PassedBy(turns, which)
    ensures j in EarlierJobs(turns[0].jobs, waiting) && KeyOf(j) == x
    decreases |turns|
  {
    var t, rest := turns[0], turns[1..];
    assert t in turns;
    if x in PassedIn(t, which) {
      PasserIsEarlier(t, waiting);
      j := t.chosen;
    } else {
      forall u | u in rest ensures Waits(u, waiting) {
        assert u in turns;
      }
      var k := PassersAreEarlier(rest, waiting, which, x);
      j := EarlierComesFromEarlier(t, rest[0], waiting, k);
    }
  }

  lemma {:induction false} PassesByWeight(turns: seq<Turn>, waiting: Job, w: Job -> nat, which: Outcome -> bool)
    requires KeepsWaiting(turns, waiting) && Spends(w, which, turns[0].now)
    ensures |PassedBy(turns, which)| <= Sum(w, EarlierJobs(turns[0].jobs, waiting))
  {
    var earlier := EarlierJobs(turns[0].jobs, waiting);
    FilterMembers(IsEarlier(waiting), turns[0].jobs);
    forall x | x in PassedBy(turns, which) ensures exists j :: j in earlier && KeyOf(j) == x {
      var j := PassersAreEarlier(turns, waiting, which, x);
    }
    forall j | j in earlier ensures multiset(PassedBy(turns, which))[KeyOf(j)] <= w(j) {
      assert IsEarlier(waiting)(j);
      PassesOfOne(turns, j, w, which, turns[0].now);
    }
    CountByJobs(PassedBy(turns, which), earlier, w);
  }

  function StartsOf(): Job -> nat {
    (j: Job) => Starts(j)
  }

  function BusyLeftOf(since: int): Job -> nat {
    (j: Job) => BusyLeft(j, since)
  }

  lemma {:induction false} TurnsSpend(since: int)
    ensures Spends(StartsOf(), IsFree(), since) && Spends(BusyLeftOf(since), IsBusy(), since)
  {
    forall j, now, finished, o
      ensures SpendsAt(StartsOf(), IsFree(), since, j, now, finished, o)
      ensures SpendsAt(BusyLeftOf(since), IsBusy(), since, j, now, finished, o)
    {
      StartsAreFew(j);
      if Waiting(j) && since <= now && j.notBefore <= now <= finished && OutcomeOK(j, now, o) && !o.Interruption? {
        TurnSpends(j, now, finished, o, since);
      }
    }
  }

  /** With a free gate an aged job is passed at most as often as the earlier jobs may
      still be started: one start for a remaining service, three for a remaining node.
      Passes over a busy gate come on top, and end with the earlier jobs' lifetimes. */
  lemma {:induction false} PassesAreBounded(turns: seq<Turn>, waiting: Job)
    requires KeepsWaiting(turns, waiting)
    ensures |PassedBy(turns, IsFree())| <= Sum(StartsOf(), EarlierJobs(turns[0].jobs, waiting))
    ensures |PassedBy(turns, IsBusy())| <= Sum(BusyLeftOf(turns[0].now), EarlierJobs(turns[0].jobs, waiting))
  {
    TurnsSpend(turns[0].now);
    PassesByWeight(turns, waiting, StartsOf(), IsFree());
    PassesByWeight(turns, waiting, BusyLeftOf(turns[0].now), IsBusy());
  }

  lemma {:induction false} SumOfOnes(w: Job -> nat, s: seq<Job>)
    requires forall j :: j in s ==> w(j) == 1
    ensures Sum(w, s) == |s|
  {
    if |s| > 0 {
      SumOfOnes(w, s[1..]);
    }
  }

  ghost predicate GateFree(turns: seq<Turn>) {
    forall t :: t in turns ==> !t.outcome.Busy?
  }

  /** If no earlier job may be started more than once, it is passed at most once for each. */
  lemma {:induction false} OnceForEachEarlierJob(turns: seq<Turn>, waiting: Job)
    requires KeepsWaiting(turns, waiting)
    requires forall j :: j in EarlierJobs(turns[0].jobs, waiting) ==> Starts(j) == 1
    ensures |PassedBy(turns, IsFree())| <= |EarlierJobs(turns[0].jobs, waiting)|
  {
    PassesAreBounded(turns, waiting);
    SumOfOnes(StartsOf(), EarlierJobs(turns[0].jobs, waiting));
  }

  // ---- and the bounds are reached ----

  /** Some waiting jobs in the order of their acceptance, and behind them a tail in which
      w is the first: nothing else runs before they do, and each has `need` left. */
  ghost predicate Line(es: seq<Job>, tail: seq<Job>, w: Job, now: int, need: int) {
    && w in tail && w.state.Queued? && w.notBefore <= now && now - w.createdAt >= 6 * MINUTE
    && (forall l :: l in tail ==> !l.kind.Stop? && (l == w || Earlier(w, l)))
    && (forall i :: 0 <= i < |es| ==> InLine(es[i], w, now, need))
    && (forall i, k :: 0 <= i < k < |es| ==> Earlier(es[i], es[k]))
    && (forall j, k :: j in es + tail && k in es + tail && j.id == k.id ==> j == k)
  }

  predicate InLine(j: Job, w: Job, now: int, need: int) {
    && Waiting(j) && !j.kind.Stop? && Earlier(j, w) && (Batched(j) ==> j.cursor < Total(j))
    && j.notBefore <= now && now + need < j.expiresAt
  }

  function LineTurn(es: seq<Job>, tail: seq<Job>, now: int, o: Outcome): Turn
    requires |es| > 0
  {
    Turn(es + tail, now, false, es[0], now, o)
  }

  lemma FirstIsSelected(es: seq<Job>, tail: seq<Job>, w: Job, now: int, need: int)
    requires Line(es, tail, w, now, need) && |es| > 0
    ensures Selected(es + tail, now, false, es[0])
  {
    assert (es + tail)[0] == es[0] && InLine(es[0], w, now, need);
    PriorityRange(es[0], now);
    forall j | j in es + tail && Runnable(j, now, false) ensures !Before(j, es[0], now) {
      PriorityRange(j, now);
      assert j in es || j in tail;
    }
  }

  lemma LineTurnOK(es: seq<Job>, tail: seq<Job>, w: Job, now: int, need: int, o: Outcome)
    requires Line(es, tail, w, now, need) && |es| > 0 && OutcomeOK(es[0], now, o)
    ensures TurnOK(LineTurn(es, tail, now, o)) && Waits(LineTurn(es, tail, now, o), w)
  {
    FirstIsSelected(es, tail, w, now, need);
    assert InLine(es[0], w, now, need);
    assert w in es + tail && es[0] in es + tail && KeyOf(es[0]) != KeyOf(w);
  }

  // The next turn sees the same queue, but for the job that ran.
  lemma LineFollows(es: seq<Job>, tail: seq<Job>, now: int, o: Outcome, rest: seq<Job>, u: Turn)
    requires |es| > 0 && !o.Interruption? && now <= u.now && u.jobs == rest + es[1..] + tail
    requires rest == [] || rest == [Dispatched(es[0], now, now, o)]
    requires forall j, k :: j in es + tail && k in es + tail && j.id == k.id ==> j == k
    requires forall i, k :: 0 <= i < k < |es| ==> Earlier(es[i], es[k])
    requires forall l :: l in tail ==> l.id != es[0].id
    ensures Follows(LineTurn(es, tail, now, o), u)
  {
    var t := LineTurn(es, tail, now, o);
    assert t.jobs[0] == es[0];
    forall k | k in u.jobs ensures CameFrom(t, k) {
      if k in es[1..] {
        var i :| 0 < i < |es| && es[i] == k;
        assert k in t.jobs && AfterTurn(t, k) == k;
      } else if k in tail {
        assert k in t.jobs && AfterTurn(t, k) == k;
      } else {
        assert k == AfterTurn(t, es[0]) && es[0] in t.jobs;
      }
    }
  }

  /** The slowest way through a job: every node after two changes of the network. */
  function Slowest(j: Job): Outcome {
    if j.attempts >= MAX_ATTEMPTS || !Batched(j) then Ended
    else if j.kind.NodeCheck? && j.attempts < 2 then NetworkChanged
    else Advanced(1)
  }

  function Next(j: Job, now: int): Job {
    Dispatched(j, now, now, Slowest(j))
  }

  // An upper bound for the time it takes.
  function Need(j: Job): nat {
    91 * SECOND * Remaining(j) - if j.attempts == 0 then 0 else if j.attempts == 1 then 30 * SECOND else 90 * SECOND
  }

  function NeedOf(): Job -> nat {
    (j: Job) => Need(j)
  }

  function NeedAll(es: seq<Job>): nat {
    Sum(NeedOf(), es)
  }

  lemma SlowestStep(j: Job, w: Job, now: int, more: nat)
    requires InLine(j, w, now, Need(j) + more) && now - w.createdAt >= 6 * MINUTE
    ensures OutcomeOK(j, now, Slowest(j)) && !Slowest(j).Busy? && !Slowest(j).Interruption?
    ensures var k := Next(j, now);
            if Starts(j) == 1 then k.state.Finished?
            else
              && InLine(k, w, k.notBefore, Need(k) + more) && k.notBefore >= now
              && k.notBefore + Need(k) <= now + Need(j)
              && Starts(k) == Starts(j) - 1 && KeyOf(k) == KeyOf(j)
  {
  }

  lemma LineShortens(es: seq<Job>, tail: seq<Job>, w: Job, now: int)
    requires |es| > 0 && Line(es, tail, w, now, NeedAll(es))
    ensures Line(es[1..], tail, w, now, NeedAll(es[1..]))
  {
    forall i | 0 <= i < |es[1..]| ensures InLine(es[1..][i], w, now, NeedAll(es[1..])) {
      assert InLine(es[i + 1], w, now, NeedAll(es));
    }
    assert forall j :: j in es[1..] + tail ==> j in es + tail;
  }

  lemma LineGoesOn(es: seq<Job>, tail: seq<Job>, w: Job, now: int, k: Job)
    requires |es| > 0 && Line(es, tail, w, now, NeedAll(es)) && k == Next(es[0], now) && Starts(es[0]) > 1
    ensures Line([k] + es[1..], tail, w, k.notBefore, NeedAll([k] + es[1..]))
    ensures NeedAll([k] + es[1..]) == Need(k) + NeedAll(es[1..])
  {
    var later := [k] + es[1..];
    assert later[1..] == es[1..];
    assert InLine(es[0], w, now, NeedAll(es));
    SlowestStep(es[0], w, now, NeedAll(es[1..]));
    forall i | 0 <= i < |later| ensures InLine(later[i], w, k.notBefore, NeedAll(later)) {
      if i > 0 {
        assert later[i] == es[i] && InLine(es[i], w, now, NeedAll(es));
      }
    }
    forall i, m | 0 <= i < m < |later| ensures Earlier(later[i], later[m]) {
      assert Earlier(es[i], es[m]);
    }
    SameIds(es, tail, k);
  }

  lemma SameIds(es: seq<Job>, tail: seq<Job>, k: Job)
    requires |es| > 0 && k.id == es[0].id && (forall i :: 0 < i < |es| ==> Earlier(es[0], es[i]))
    requires forall l :: l in tail ==> l != es[0]
    requires forall j, m :: j in es + tail && m in es + tail && j.id == m.id ==> j == m
    ensures forall j, m :: j in [k] + es[1..] + tail && m in [k] + es[1..] + tail && j.id == m.id ==> j == m
  {
    assert es[0] in es + tail;
    forall j | j in es[1..] + tail ensures j in es + tail && j.id != k.id {
      assert j in es + tail;
      if j in es[1..] {
        var i :| 0 < i < |es| && es[i] == j;
        assert Earlier(es[0], j);
      }
    }
  }

  // The earlier jobs after the first one's turn, and when the next turn may come.
  function AfterFirst(es: seq<Job>, now: int): seq<Job>
    requires |es| > 0
  {
    if Starts(es[0]) == 1 then es[1..] else [Next(es[0], now)] + es[1..]
  }

  function Then(es: seq<Job>, now: int): int
    requires |es| > 0
  {
    if Starts(es[0]) == 1 then now else Next(es[0], now).notBefore
  }

  lemma SlowNext(es: seq<Job>, tail: seq<Job>, w: Job, now: int)
    requires |es| > 0 && Line(es, tail, w, now, NeedAll(es))
    ensures var rest := AfterFirst(es, now);
            && Line(rest, tail, w, Then(es, now), NeedAll(rest))
            && Sum(StartsOf(), rest) == Sum(StartsOf(), es) - 1
  {
    assert InLine(es[0], w, now, NeedAll(es));
    StartsAreFew(es[0]);
    SlowestStep(es[0], w, now, NeedAll(es[1..]));
    if Starts(es[0]) == 1 {
      LineShortens(es, tail, w, now);
    } else {
      LineGoesOn(es, tail, w, now, Next(es[0], now));
      assert ([Next(es[0], now)] + es[1..])[1..] == es[1..];
    }
  }

  lemma SlowFollows(es: seq<Job>, tail: seq<Job>, w: Job, now: int, u: Turn)
    requires |es| > 0 && Line(es, tail, w, now, NeedAll(es))
    requires u.jobs == AfterFirst(es, now) + tail && u.now == Then(es, now)
    ensures Follows(LineTurn(es, tail, now, Slowest(es[0])), u)
  {
    assert InLine(es[0], w, now, NeedAll(es)) && es[0] in es + tail;
    StartsAreFew(es[0]);
    SlowestStep(es[0], w, now, NeedAll(es[1..]));
    var front := if Starts(es[0]) == 1 then [] else [Next(es[0], now)];
    assert AfterFirst(es, now) == front + es[1..];
    LineFollows(es, tail, now, Slowest(es[0]), front, u);
  }

  /** A run in which every earlier job is started as often as it may be. */
  lemma {:induction false} SlowRun(es: seq<Job>, tail: seq<Job>, w: Job, now: int) returns (turns: seq<Turn>)
    requires |es| > 0 && Line(es, tail, w, now, NeedAll(es))
    ensures |turns| > 0 && turns[0].jobs == es + tail && turns[0].now == now
    ensures IsRun(turns) && GateFree(turns) && forall t :: t in turns ==> Waits(t, w)
    ensures |PassedBy(turns, IsFree())| == Sum(StartsOf(), es)
    decreases Sum(StartsOf(), es)
  {
    var t := LineTurn(es, tail, now, Slowest(es[0]));
    assert InLine(es[0], w, now, NeedAll(es));
    SlowestStep(es[0], w, now, NeedAll(es[1..]));
    LineTurnOK(es, tail, w, now, NeedAll(es), Slowest(es[0]));
    SlowNext(es, tail, w, now);
    if AfterFirst(es, now) == [] {
      turns := [t];
      assert turns[1..] == [];
    } else {
      var rest := SlowRun(AfterFirst(es, now), tail, w, Then(es, now));
      SlowFollows(es, tail, w, now, rest[0]);
      turns := [t] + rest;
      assert turns[1..] == rest;
    }
  }

  lemma FilterNone<T(!new)>(keep: T -> bool, s: seq<T>)
    requires forall x :: x in s ==> !keep(x)
    ensures Filter(keep, s) == []
  {
  }

  lemma LineIsEarlier(es: seq<Job>, tail: seq<Job>, w: Job, now: int, need: int)
    requires Line(es, tail, w, now, need)
    ensures EarlierJobs(es + tail, w) == es
  {
    var f := IsEarlier(w);
    FilterOfConcat(f, es, tail);
    forall j | j in es ensures f(j) {
      var i :| 0 <= i < |es| && es[i] == j;
      assert InLine(j, w, now, need);
      assert w in es + tail && j in es + tail;
    }
    FilterKeepsAll(f, es);
    FilterNone(f, tail);
  }

  /** In every run with a free gate that begins with this queue at this time. */
  ghost predicate PassedAtMost(jobs: seq<Job>, w: Job, now: int, n: nat) {
    forall turns: seq<Turn> {:trigger KeepsWaiting(turns, w)} ::
      KeepsWaiting(turns, w) && GateFree(turns) && turns[0].jobs == jobs && turns[0].now == now ==>
        |PassedBy(turns, IsFree())| <= n
  }

  /** The bound is exact, on the queue: behind earlier jobs that have the time they need,
      every run with a free gate passes an aged job at most n times if and only if these
      jobs may be started n times at most. */
  lemma PassedAtMostExactly(es: seq<Job>, tail: seq<Job>, w: Job, now: int, n: nat)
    requires |es| > 0 && Line(es, tail, w, now, NeedAll(es))
    ensures PassedAtMost(es + tail, w, now, n) <==> Sum(StartsOf(), es) <= n
  {
    var turns := SlowRun(es, tail, w, now);
    assert KeepsWaiting(turns, w);
    LineIsEarlier(es, tail, w, now, NeedAll(es));
    forall u: seq<Turn> | KeepsWaiting(u, w) && u[0].jobs == es + tail && u[0].now == now
      ensures |PassedBy(u, IsFree())| <= Sum(StartsOf(), es)
    {
      PassesAreBounded(u, w);
    }
  }

  lemma {:induction false} SumOfStarts(es: seq<Job>)
    ensures Sum(StartsOf(), es) >= |es|
    ensures Sum(StartsOf(), es) == |es| <==> forall j :: j in es ==> Starts(j) == 1
  {
    if |es| > 0 {
      SumOfStarts(es[1..]);
      StartsAreFew(es[0]);
      assert forall j :: j in es <==> j == es[0] || j in es[1..];
    }
  }

  /** So it is passed at most once for each earlier job if and only if none of these is put
      back: each is of another kind, or at its last service, or at the last attempt of its
      last node, or out of attempts. */
  lemma OnceForEachExactly(es: seq<Job>, tail: seq<Job>, w: Job, now: int)
    requires |es| > 0 && Line(es, tail, w, now, NeedAll(es))
    ensures PassedAtMost(es + tail, w, now, |es|) <==> forall j :: j in es ==> Starts(j) == 1
  {
    PassedAtMostExactly(es, tail, w, now, |es|);
    SumOfStarts(es);
  }

  // ---- what the loop of the process does most easily ----

  // A line of one job goes on with that job as its turn left it.
  lemma LineOfOne(j: Job, tail: seq<Job>, w: Job, now: int, need: int, o: Outcome, k: Job, more: int)
    requires Line([j], tail, w, now, need) && OutcomeOK(j, now, o) && !o.Interruption? &&
        k == Dispatched(j, now, now, o)
    requires InLine(k, w, k.notBefore, more) && now <= k.notBefore
    ensures Line([k], tail, w, k.notBefore, more)
    ensures forall u: Turn :: u.jobs == [k] + tail && u.now == k.notBefore ==> Follows(LineTurn([j], tail, now, o), u)
  {
    assert j in [j] + tail && [j][1..] == [];
    SameIds([j], tail, k);
    assert [k] + [j][1..] + tail == [k] + tail;
    forall u: Turn | u.jobs == [k] + tail && u.now == k.notBefore
      ensures Follows(LineTurn([j], tail, now, o), u)
    {
      LineFollows([j], tail, now, o, [k], u);
    }
  }

  lemma SteadyStep(j: Job, w: Job, now: int)
    requires InLine(j, w, now, Remaining(j) * SECOND) && j.kind.NodeCheck? && j.attempts < MAX_ATTEMPTS
    requires now - w.createdAt >= 6 * MINUTE
    ensures OutcomeOK(j, now, Advanced(1))
    ensures var k := Dispatched(j, now, now, Advanced(1));
            Remaining(j) > 1 ==>
              && k.notBefore == now + SECOND && Remaining(k) == Remaining(j) - 1 && k.attempts == 0 && k.kind.NodeCheck?
              && InLine(k, w, k.notBefore, Remaining(k) * SECOND)
  {
  }

  /** Node after node, a second apart. */
  lemma {:induction false} SteadyRun(j: Job, tail: seq<Job>, w: Job, now: int) returns (turns: seq<Turn>)
    requires Line([j], tail, w, now, Remaining(j) * SECOND) && j.kind.NodeCheck? && j.attempts < MAX_ATTEMPTS
    ensures |turns| == Remaining(j) && turns[0].jobs == [j] + tail && turns[0].now == now
    ensures IsRun(turns) && GateFree(turns) && forall t :: t in turns ==> Waits(t, w) && t.outcome == Advanced(1)
    ensures forall i :: 0 <= i < |turns| ==> turns[i].now == now + i * SECOND
    ensures |PassedBy(turns, IsFree())| == |turns|
    decreases Remaining(j)
  {
    var k := Dispatched(j, now, now, Advanced(1));
    var t := LineTurn([j], tail, now, Advanced(1));
    assert InLine([j][0], w, now, Remaining(j) * SECOND);
    SteadyStep(j, w, now);
    LineTurnOK([j], tail, w, now, Remaining(j) * SECOND, Advanced(1));
    if Remaining(j) == 1 {
      turns := [t];
      assert turns[1..] == [];
    } else {
      LineOfOne(j, tail, w, now, Remaining(j) * SECOND, Advanced(1), k, Remaining(k) * SECOND);
      var rest := SteadyRun(k, tail, w, k.notBefore);
      turns := [t] + rest;
      assert turns[1..] == rest;
    }
  }

  lemma SteadyLine(j: Job, w: Job, now: int)
    requires j.expiresAt == j.createdAt + DAY && now == w.createdAt + 6 * MINUTE && w.createdAt == j.createdAt + SECOND
    requires Waiting(j) && j.kind.NodeCheck? && j.nodes <= 512 && j.cursor < j.nodes && j.notBefore <= now &&
        j.id != w.id
    requires w.state.Queued? && !w.kind.Stop? && w.notBefore <= now
    ensures Line([j], [w], w, now, Remaining(j) * SECOND)
  {
    assert forall i :: i in [j] + [w] ==> i == j || i == w;
  }

  /** With what the store accepts: a check of a catalogue of 512 nodes, a node a second,
      passes one aged job 512 times. */
  lemma CatalogueCheckPasses(j: Job, w: Job, now: int)
    requires ValidJob(j) && j.kind.NodeCheck? && j.catalogue && j.nodes == 512 && j.cursor == 0 && j.attempts == 0
    requires j.expiresAt == j.createdAt + DAY && now == w.createdAt + 6 * MINUTE && w.createdAt == j.createdAt + SECOND
    requires Waiting(j) && j.notBefore <= now && j.id != w.id
    requires w.state.Queued? && !w.kind.Stop? && w.notBefore <= now
    ensures EarlierJobs([j] + [w], w) == [j]
    ensures exists turns: seq<Turn> :: KeepsWaiting(turns, w) && turns[0].jobs == [j] + [w] && IsSteady(turns, now, 512)
  {
    SteadyLine(j, w, now);
    var turns := SteadyRun(j, [w], w, now);
    LineIsEarlier([j], [w], w, now, Remaining(j) * SECOND);
    assert KeepsWaiting(turns, w);
  }

  /** n passes, each a node that was checked, a second apart. */
  ghost predicate IsSteady(turns: seq<Turn>, now: int, n: nat) {
    && |turns| == n && |PassedBy(turns, IsFree())| == n
    && forall i :: 0 <= i < n ==> turns[i].now == now + i * SECOND && turns[i].outcome == Advanced(1)
  }

  lemma BusyStep(j: Job, w: Job, now: int)
    requires InLine(j, w, now, 0) && j.attempts < MAX_ATTEMPTS && now - w.createdAt >= 6 * MINUTE
    ensures OutcomeOK(j, now, Busy)
    ensures var k := Dispatched(j, now, now, Busy);
            && k.notBefore == now + 5 * SECOND
            && if k.notBefore >= j.expiresAt then BusyLeft(j, now) == 1
               else InLine(k, w, k.notBefore, 0) && BusyLeft(j, now) == 1 + BusyLeft(k, k.notBefore)
  {
  }

  /** The gate may be busy for an earlier job every five seconds until it expires. */
  lemma {:induction false} BusyRun(j: Job, tail: seq<Job>, w: Job, now: int) returns (turns: seq<Turn>)
    requires Line([j], tail, w, now, 0) && j.attempts < MAX_ATTEMPTS
    ensures |turns| > 0 && turns[0].jobs == [j] + tail && turns[0].now == now
    ensures IsRun(turns) && forall t :: t in turns ==> Waits(t, w)
    ensures |PassedBy(turns, IsBusy())| == BusyLeft(j, now)
    decreases j.expiresAt - now
  {
    var k := Dispatched(j, now, now, Busy);
    var t := LineTurn([j], tail, now, Busy);
    assert InLine([j][0], w, now, 0);
    BusyStep(j, w, now);
    LineTurnOK([j], tail, w, now, 0, Busy);
    if k.notBefore >= j.expiresAt {
      turns := [t];
      assert turns[1..] == [];
    } else {
      LineOfOne(j, tail, w, now, 0, Busy, k, 0);
      var rest := BusyRun(k, tail, w, k.notBefore);
      turns := [t] + rest;
      assert turns[1..] == rest;
    }
  }

  /** So the bound for a busy gate is reached as well, behind one earlier job. */
  lemma BusyBoundIsReached(j: Job, tail: seq<Job>, w: Job, now: int)
    requires Line([j], tail, w, now, 0) && j.attempts < MAX_ATTEMPTS
    ensures EarlierJobs([j] + tail, w) == [j] && Sum(BusyLeftOf(now), [j]) == BusyLeft(j, now)
    ensures exists turns: seq<Turn> :: KeepsWaiting(turns, w) && turns[0].jobs == [j] + tail && turns[0].now == now
              && |PassedBy(turns, IsBusy())| == BusyLeft(j, now)
  {
    var turns := BusyRun(j, tail, w, now);
    LineIsEarlier([j], tail, w, now, 0);
    assert [j][1..] == [] && Sum(BusyLeftOf(now), []) == 0;
    assert KeepsWaiting(turns, w);
  }
}

/** A reviewed default-route application: the review is used at most once over any
    interleaving of calls, and the image its guards expect moves only to a
    sanctioned commit of the reviewed one. Each method is one atomic step of one
    caller; other writers of the settings may step in between. */
module OneUseReview {
  import opened Basics
  import opened Histories

  type Route = int
  const UNSET: Route := 0
  const AUTO: Route := 1
  const DIRECT: Route := 2
  const EMPTY_ID: int := 0
  const NO_SOURCES: int := 0
  const SECOND: int := 1000000000
  const MAX_REVISION: nat := 0xffff_ffff_ffff_ffff

  datatype Policy = Policy(defaultRoute: Route, rest: int)

  // `sources` is an injective name of the list, `canonical` that it is in normal form.
  datatype ServiceState = ServiceState(mode: Route, route: Route, sources: int, canonical: bool, rest: int)

  datatype ServicePolicy = ServicePolicy(
    enabled: bool, manual: bool, legacy: bool, sources: int, revision: nat, pinned: Option<Route>, allowed: set<Route>)

  // The consent to a default route, and whether it covers what is installed.
  datatype Consent = Consent(revision: nat, policy: Policy, inScope: bool)

  // The settings, as far as the commit touches them; `lastApplied` in seconds.
  datatype Config = Config(
    revision: nat,
    stopped: bool,
    policy: Policy,
    services: map<int, ServiceState>,
    policies: map<int, ServicePolicy>,
    consent: Option<Consent>,
    appliedPolicy: Option<Policy>,
    appliedServices: map<int, ServiceState>,
    appliedRevision: nat,
    lastApplied: Option<int>,
    rest: int)

  function NormalState(s: ServiceState): ServiceState {
    var route := if s.route != UNSET then s.route else if s.mode != UNSET then s.mode else AUTO;
    s.(route := route, mode := route)
  }

  function NormalStates(services: map<int, ServiceState>): map<int, ServiceState> {
    map id | id in services :: NormalState(services[id])
  }

  /** A service's own automation ends when its applied state changes: only the node
      of the new route, if the policy allows that node, stays pinned. */
  function Fence(p: ServicePolicy, route: Route, sources: int): ServicePolicy {
    ServicePolicy(false, true, false, sources, if p.revision < MAX_REVISION then p.revision + 1 else p.revision,
                  if route in p.allowed then Some(route) else None, p.allowed)
  }

  function Fenced(policies: map<int, ServicePolicy>, applied: map<int, ServiceState>, next: map<int, ServiceState>)
    : map<int, ServicePolicy>
  {
    map id | id in policies ::
      if id in next then
        if id in applied && applied[id] == next[id] then policies[id]
        else Fence(policies[id], next[id].route, next[id].sources)
      else if id in applied then Fence(policies[id], DIRECT, NO_SOURCES)
      else policies[id]
  }

  predicate ConsentCurrent(c: Config) {
    c.consent.Some? && c.consent.value.inScope && c.consent.value.revision == c.revision &&
      c.consent.value.policy == c.policy
  }

  /** The one sanctioned transition: the reviewed policy and services become the
      applied ones under the next revision, at a given second. */
  function CommitImage(before: Config, p: Policy, services: map<int, ServiceState>, at: int): Option<Config> {
    var wanted := if before.policy.defaultRoute == AUTO then before.policy.(defaultRoute := p.defaultRoute)
      else before.policy;
    if before.stopped || before.revision == MAX_REVISION || wanted != p then None
    else if EMPTY_ID in services || exists id :: id in services && !services[id].canonical then None
    else
      var next := NormalStates(services);
      Some(before.(
        revision := before.revision + 1,
        policies := Fenced(before.policies, before.appliedServices, next),
        consent := if ConsentCurrent(before) then Some(before.consent.value.(revision := before.revision + 1))
          else before.consent,
        appliedPolicy := Some(p),
        appliedServices := next,
        appliedRevision := before.revision + 1,
        lastApplied := Some(at)))
  }

  /** There is such an image exactly for running settings with a revision left, whose policy is
      the reviewed one but for an automatic default route, and well-formed services. */
  lemma CommitImageExists(before: Config, p: Policy, services: map<int, ServiceState>, at: int)
    ensures CommitImage(before, p, services, at).Some? <==>
            && !before.stopped && before.revision != 0xffff_ffff_ffff_ffff
            && (before.policy == p || (before.policy.defaultRoute == AUTO && before.policy.rest == p.rest))
            && forall id :: id in services ==> id != EMPTY_ID && services[id].canonical
  {
  }

  function Seconds(t: int): int {
    t / SECOND
  }

  /** Whether the settings read after a commit are the sanctioned image of the ones
      before it, stamped within the commit. Times in nanoseconds. */
  predicate CommittedConfig(before: Config, after: Config, p: Policy, services: map<int, ServiceState>, started: int,
                            finished: int) {
    && after.lastApplied.Some? && started <= finished
    && Seconds(started) <= after.lastApplied.value <= Seconds(finished)
    && CommitImage(before, p, services, after.lastApplied.value) == Some(after)
  }

  /** It accepts exactly the sanctioned images of the seconds of the commit. */
  lemma CommittedExactly(before: Config, after: Config, p: Policy, services: map<int, ServiceState>, started: int,
                         finished: int)
    requires started <= finished
    ensures CommittedConfig(before, after, p, services, started, finished) <==>
              exists t :: started <= t <= finished && CommitImage(before, p, services, Seconds(t)) == Some(after)
  {
    if CommittedConfig(before, after, p, services, started, finished) {
      var at := after.lastApplied.value;
      var t := if at * SECOND < started then started else at * SECOND;
      assert started <= t <= finished && Seconds(t) == at;
    }
  }

  predicate SameApplied(before: map<int, ServiceState>, after: map<int, ServiceState>, id: int) {
    if id in after then id in before && before[id] == after[id] else id !in before
  }

  /** The automation of a service has ended under a route with these sources. */
  predicate Ended(before: ServicePolicy, after: ServicePolicy, route: Route, sources: int) {
    && !after.enabled && after.manual && !after.legacy && after.sources == sources && after.allowed == before.allowed
    && (route in after.allowed ==> after.pinned == Some(route))
    && (route !in after.allowed ==> after.pinned.None?)
    && (before.revision < MAX_REVISION ==> after.revision == before.revision + 1)
    && (before.revision >= MAX_REVISION ==> after.revision == before.revision)
  }

  /** What a sanctioned commit may differ in: the applied part, the revision, the
      automation of exactly the services whose applied state changed, and the
      revision of a consent that was current, which stays current; none becomes so. */
  lemma CommittedKeepsTheRest(before: Config, after: Config, p: Policy, services: map<int, ServiceState>, started: int,
                              finished: int)
    requires CommittedConfig(before, after, p, services, started, finished)
    ensures after.revision == before.revision + 1 == after.appliedRevision && after != before
    ensures after.policy == before.policy && after.services == before.services && after.rest == before.rest &&
        !after.stopped
    ensures after.appliedPolicy == Some(p) && after.appliedServices == NormalStates(services)
    ensures after.appliedServices.Keys == services.Keys
    ensures forall id :: id in services ==>
              var s, applied := services[id], after.appliedServices[id];
              && applied.mode == applied.route && applied == s.(route := applied.route, mode := applied.route)
              && (s.route != UNSET ==> applied.route == s.route)
              && (s.route == UNSET ==> applied.route == if s.mode != UNSET then s.mode else AUTO)
    ensures after.policies.Keys == before.policies.Keys
    ensures forall id :: id in before.policies ==>
              if SameApplied(before.appliedServices, after.appliedServices, id)
              then after.policies[id] == before.policies[id]
              else if id in services
              then Ended(before.policies[id], after.policies[id], after.appliedServices[id].route, services[id].sources)
              else Ended(before.policies[id], after.policies[id], DIRECT, NO_SOURCES)
    ensures before.consent.Some? ==>
              var c := before.consent.value;
              after.consent == Some(
                if c.inScope && c.revision == before.revision && c.policy == before.policy
                then c.(revision := after.revision) else c)
    ensures before.consent.None? ==> after.consent.None?
    ensures ConsentCurrent(before) ==> ConsentCurrent(after)
    ensures before.consent.Some? && before.consent.value.revision <= before.revision && ConsentCurrent(after) ==>
        ConsentCurrent(before)
  {
  }

  // ---- histories ----

  type Caller = int

  datatype Event =
    | Claimed(caller: Caller)
    | Entered(caller: Caller)            // the application was entered
    | Accepted(config: Config)           // a guard of the application accepted
    | Published(config: Config, started: int, finished: int)
    | StoreChanged(config: Config)       // any write to the settings

  type History = Trace<Config, Event>

  datatype Summary = Summary(store: Config, owner: Option<Caller>, entered: nat, published: Option<Config>)

  function Next(s: Summary, e: Event): Summary {
    match e
    case Claimed(caller) => s.(owner := Some(caller))
    case Entered(_) => s.(entered := s.entered + 1)
    case Accepted(_) => s
    case Published(config, _, _) => s.(published := Some(config))
    case StoreChanged(config) => s.(store := config)
  }

  function Summarize(h: History): Summary {
    match h
    case Start(store) => Summary(store, None, 0, None)
    case After(past, e) => Next(Summarize(past), e)
  }

  datatype Review = Review(config: Config, policy: Policy)

  /** What the guards compare the settings with. */
  function Expected(r: Review, s: Summary): Config {
    if s.published.Some? then s.published.value else r.config
  }

  ghost predicate StepOK(r: Review, s: Summary, e: Event) {
    match e
    case Claimed(_) => s.owner.None?
    case Entered(caller) => s.owner == Some(caller) && s.entered == 0
    case Accepted(config) => config == s.store && config == Expected(r, s)
    case Published(config, started, finished) =>
      && s.entered == 1 && config == s.store
      && CommittedConfig(r.config, config, r.policy, r.config.services, started, finished)
    case StoreChanged(_) => true
  }

  ghost function May(r: Review): (History, Event) -> bool {
    (p: History, e: Event) => StepOK(r, Summarize(p), e)
  }

  ghost predicate Safe(r: Review, h: History) {
    Permitted(May(r), h)
  }

  lemma SafeUpTo(r: Review, p: History, h: History)
    requires Safe(r, h) && IsPrefix(p, h)
    ensures Safe(r, p)
  {
    PermittedUpTo(May(r), p, h);
  }

  function Entries(h: History): nat {
    match h
    case Start(_) => 0
    case After(past, e) => Entries(past) + if e.Entered? then 1 else 0
  }

  /** Over every interleaving the application is entered at most once. */
  lemma {:induction false} EnteredAtMostOnce(r: Review, h: History)
    requires Safe(r, h)
    ensures Summarize(h).entered == Entries(h) <= 1
  {
    if h.After? {
      EnteredAtMostOnce(r, h.past);
    }
  }

  lemma {:induction false} ClaimPersists(first: History, last: History)
    requires IsPrefix(first, last) && Summarize(first).owner.Some?
    ensures Summarize(last).owner.Some?
  {
    if first != last {
      ClaimPersists(first, last.past);
    }
  }

  /** A review that was claimed once is never claimed again, whatever became of the
      first attempt. */
  lemma ClaimedAtMostOnce(r: Review, p: History, a: Caller, q: History, b: Caller, h: History)
    requires Safe(r, h) && IsPrefix(After(p, Claimed(a)), q)
    ensures !IsPrefix(After(q, Claimed(b)), h)
  {
    if IsPrefix(After(q, Claimed(b)), h) {
      SafeUpTo(r, After(q, Claimed(b)), h);
      ClaimPersists(After(p, Claimed(a)), q);
    }
  }

  lemma {:induction false} PublishedIsSanctioned(r: Review, h: History)
    requires Safe(r, h)
    ensures Summarize(h).published.Some? ==>
              exists s, f :: CommittedConfig(r.config, Summarize(h).published.value, r.policy, r.config.services, s, f)
  {
    if h.After? {
      PublishedIsSanctioned(r, h.past);
    }
  }

  /** Before a commit is published the guards accept the reviewed image only; after
      it, only a sanctioned commit of that image, which differs from it. */
  lemma GuardsAcceptOnlySanctioned(r: Review, p: History, config: Config, h: History)
    requires Safe(r, h) && IsPrefix(After(p, Accepted(config)), h)
    ensures config == Summarize(p).store
    ensures Summarize(p).published.None? ==> config == r.config
    ensures Summarize(p).published.Some? ==>
              && config != r.config && config.revision == r.config.revision + 1
              && exists s, f :: CommittedConfig(r.config, config, r.policy, r.config.services, s, f)
  {
    SafeUpTo(r, After(p, Accepted(config)), h);
    PublishedIsSanctioned(r, p);
  }

  /** What is published was read from the settings, by a run that has entered the application. */
  lemma PublishedOnceEntered(r: Review, p: History, config: Config, started: int, finished: int, h: History)
    requires Safe(r, h) && IsPrefix(After(p, Published(config, started, finished)), h)
    ensures Entries(p) == 1 && config == Summarize(p).store
  {
    SafeUpTo(r, After(p, Published(config, started, finished)), h);
    EnteredAtMostOnce(r, p);
  }

  function Publishes(): Event -> bool {
    (e: Event) => e.Published?
  }

  /** No write to the settings, sanctioned or not, moves what the guards expect;
      only publication does. */
  lemma {:induction false} OnlyPublicationMovesExpectation(r: Review, first: History, last: History)
    requires IsPrefix(first, last) && !Between(first, last, Publishes())
    ensures Expected(r, Summarize(last)) == Expected(r, Summarize(first))
  {
    if first != last {
      OnlyPublicationMovesExpectation(r, first, last.past);
    }
  }

  // ---- the executor ----

  datatype Phase = Idle | Holding | Guarded | Applying | Committing(started: int) | Over

  function PhaseIn(phase: map<Caller, Phase>, c: Caller): (r: Phase)
    ensures c in phase ==> r == phase[c]
    ensures c !in phase ==> r.Idle?
  {
    if c in phase then phase[c] else Idle
  }

  class Execution {
    const review: Review
    const digest: int
    var used: bool
    var store: Config
    var expected: Config
    var phase: map<Caller, Phase>
    ghost var history: History

    /** The phases of all callers agree with what happened. */
    ghost predicate Valid()
      reads this
    {
      var s := Summarize(history);
      && Safe(review, history)
      && s.store == store && used == s.owner.Some? && expected == Expected(review, s)
      && (s.owner.None? ==> s.entered == 0)
      && (forall c :: !PhaseIn(phase, c).Idle? && !PhaseIn(phase, c).Over? ==> s.owner == Some(c))
      && (forall c :: PhaseIn(phase, c).Applying? || PhaseIn(phase, c).Committing? ==> s.entered == 1)
      && (forall c :: PhaseIn(phase, c).Holding? || PhaseIn(phase, c).Guarded? ==> s.entered == 0)
    }

    constructor (r: Review, d: int, current: Config)
      ensures Valid() && !used && review == r && digest == d && store == current
    {
      review, digest, used, store, expected, phase := r, d, false, current, r.config, map[];
      history := Start(current);
    }

    // Any other writer of the settings.
    method ChangeStore(c: Config)
      requires Valid()
      modifies `store, `history
      ensures Valid() && store == c
    {
      store := c;
      history := After(history, StoreChanged(c));
    }

    /** A call with the digest of the review claims it, once and for all. */
    method Claim(caller: Caller, d: int, admitted: bool) returns (ok: bool)
      requires Valid() && PhaseIn(phase, caller).Idle?
      modifies `used, `phase, `history
      ensures Valid()
      ensures ok <==> d == digest && admitted && !old(used)
      ensures used == (old(used) || ok)
      ensures phase == old(phase)[caller := if ok then Holding else Over]
      ensures history == if ok then After(old(history), Claimed(caller)) else old(history)
    {
      ok := d == digest && admitted && !used;
      ghost var before := phase;
      phase := phase[caller := if ok then Holding else Over];
      assert forall c :: c != caller ==> PhaseIn(phase, c) == PhaseIn(before, c);
      if ok {
        used := true;
        history := After(history, Claimed(caller));
      }
    }

    /** The guard before the application; `observed` is everything but the image. */
    method FirstGuard(caller: Caller, observed: bool) returns (ok: bool)
      requires Valid() && PhaseIn(phase, caller).Holding?
      modifies `phase
      ensures Valid()
      ensures ok <==> observed && !store.stopped && store == review.config
      ensures phase == old(phase)[caller := if ok then Guarded else Over]
    {
      ok := observed && !store.stopped && store == review.config;
      phase := phase[caller := if ok then Guarded else Over];
    }

    method Enter(caller: Caller, fenced: bool) returns (ok: bool)
      requires Valid() && PhaseIn(phase, caller).Guarded?
      modifies `phase, `history
      ensures Valid()
      ensures ok <==> !fenced
      ensures phase == old(phase)[caller := if ok then Applying else Over]
      ensures history == if ok then After(old(history), Entered(caller)) else old(history)
    {
      ok := !fenced;
      phase := phase[caller := if ok then Applying else Over];
      if ok {
        history := After(history, Entered(caller));
      }
    }

    /** A guard of the running application, from any of its workers. */
    method Guard(observed: bool) returns (ok: bool)
      requires Valid()
      modifies `history
      ensures Valid()
      ensures ok <==> observed && !store.stopped && store == expected
      ensures history == if ok then After(old(history), Accepted(store)) else old(history)
    {
      ok := observed && !store.stopped && store == expected;
      if ok {
        history := After(history, Accepted(store));
      }
    }

    /** The commit callback up to the store's own write: a second one is refused. */
    method BeginCommit(caller: Caller, observed: bool, now: int) returns (ok: bool)
      requires Valid() && PhaseIn(phase, caller).Applying?
      modifies `phase, `history
      ensures Valid()
      ensures ok <==> observed && !store.stopped && store == expected && store == review.config
      ensures phase == old(phase)[caller := if ok then Committing(now) else Applying]
    {
      ok := Guard(observed);
      ok := ok && store == review.config;
      if ok {
        phase := phase[caller := Committing(now)];
      }
    }

    /** Publication of the image read back after the write: only a sanctioned one
        that is still there becomes what the guards expect. */
    method Publish(caller: Caller, committed: bool, finished: int, observed: bool) returns (ok: bool)
      requires Valid() && PhaseIn(phase, caller).Committing?
      modifies `expected, `phase, `history
      ensures Valid()
      ensures ok <==>
        && committed && observed
        && CommittedConfig(review.config, store, review.policy, review.config.services,
             old(PhaseIn(phase, caller)).started, finished)
      ensures expected == if ok then store else old(expected)
      ensures phase == old(phase)[caller := Applying]
      ensures history == if ok then After(old(history), Published(store, old(PhaseIn(phase, caller)).started, finished))
        else old(history)
    {
      var started := PhaseIn(phase, caller).started;
      phase := phase[caller := Applying];
      ok := committed && observed
        && CommittedConfig(review.config, store, review.policy, review.config.services, started, finished);
      if ok {
        history := After(history, Published(store, started, finished));
        expected := store;
      }
    }

    method Finish(caller: Caller)
      requires Valid() && PhaseIn(phase, caller).Applying?
      modifies `phase
      ensures Valid() && PhaseIn(phase, caller).Over?
    {
      phase := phase[caller := Over];
    }
  }

  /** So however its methods are called, the application is entered once at most, and the
      guards expect the reviewed settings or a sanctioned commit of them. */
  lemma ExecutionIsSound(e: Execution)
    requires e.Valid()
    ensures Safe(e.review, e.history) && Entries(e.history) <= 1
    ensures e.expected == e.review.config || exists s, f ::
              CommittedConfig(e.review.config, e.expected, e.review.policy, e.review.config.services, s, f)
  {
    EnteredAtMostOnce(e.review, e.history);
    PublishedIsSanctioned(e.review, e.history);
  }
}

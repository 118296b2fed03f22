/** Exact comparisons of what is applied with what is proposed: background failover
    keeps the committed targets, and a rollback may restore a plan only when the
    applied settings are that plan's. Addresses and names are opaque identifiers. */
module Matchers {
  import opened Basics
  import opened Sorting

  type Id = int

  /** sameStringSet: equal up to reordering. */
  method SameStringSet(left: seq<Id>, right: seq<Id>) returns (same: bool)
    ensures same <==> multiset(left) == multiset(right)
  {
    if |left| != |right| {
      assert |multiset(left)| != |multiset(right)|;
      return false;
    }
    var a, b := SortIds(left), SortIds(right);
    AscendingIsTotal();
    for i := 0 to |a|
      invariant a[..i] == b[..i]
    {
      if a[i] != b[i] {
        if multiset(left) == multiset(right) {
          SortForgetsInputOrder(Ascending(), left, right);
          assert false;
        }
        return false;
      }
    }
    assert a == a[..|a|] && b == b[..|b|];
    return true;
  }

  // ---- autopilotTargetsUnchanged ----

  datatype Target = Target(service: Id, domains: seq<Id>, cidrs: seq<Id>, sources: seq<Id>, refs: seq<Id>, probe: Id)

  predicate SameTarget(a: Target, b: Target) {
    && multiset(a.domains) == multiset(b.domains) && multiset(a.cidrs) == multiset(b.cidrs)
    && multiset(a.sources) == multiset(b.sources) && multiset(a.refs) == multiset(b.refs)
    && a.probe == b.probe
  }

  function Services(s: seq<Target>): (r: seq<Id>)
    ensures |r| == |s| && forall i :: 0 <= i < |s| ==> r[i] == s[i].service
  {
    seq(|s|, i requires 0 <= i < |s| => s[i].service)
  }

  ghost predicate Agree(previous: seq<Target>, b: Target) {
    forall a :: a in previous && a.service == b.service ==> SameTarget(a, b)
  }

  /** Both lists name each service once, the same services, with the same targets. */
  ghost predicate Unchanged(previous: seq<Target>, next: seq<Target>) {
    && NoDup(Services(previous)) && NoDup(Services(next))
    && Elements(Services(previous)) == Elements(Services(next))
    && forall b :: b in next ==> Agree(previous, b)
  }

  lemma ServicesStep(s: seq<Target>, i: nat)
    requires i < |s|
    ensures Services(s[..i + 1]) == Services(s[..i]) + [s[i].service]
    ensures Elements(Services(s[..i + 1])) == Elements(Services(s[..i])) + {s[i].service}
    ensures s[i].service in Elements(Services(s))
  {
  }

  lemma TwiceNamed(s: seq<Target>, a: Target, b: Target)
    requires NoDup(Services(s)) && a in s && b in s && a.service == b.service
    ensures a == b
  {
    NoDupByIndex(Services(s));
    var i :| 0 <= i < |s| && s[i] == a;
    var j :| 0 <= j < |s| && s[j] == b;
    assert Services(s)[i] == Services(s)[j];
  }

  method SameTargets(a: Target, b: Target) returns (same: bool)
    requires a.service == b.service
    ensures same <==> SameTarget(a, b)
  {
    var d := SameStringSet(a.domains, b.domains);
    var c := SameStringSet(a.cidrs, b.cidrs);
    var s := SameStringSet(a.sources, b.sources);
    var r := SameStringSet(a.refs, b.refs);
    return d && c && s && r && a.probe == b.probe;
  }

  method ByService(s: seq<Target>) returns (m: map<Id, Target>)
    ensures m.Keys == Elements(Services(s))
    ensures forall id :: id in m ==> m[id] in s && m[id].service == id
  {
    m := map[];
    for i := 0 to |s|
      invariant m.Keys == Elements(Services(s[..i]))
      invariant forall id :: id in m ==> m[id] in s && m[id].service == id
    {
      ServicesStep(s, i);
      m := m[s[i].service := s[i]];
    }
    assert s[..|s|] == s;
  }

  // What the second loop has matched: distinct known services with equal targets.
  ghost predicate Matched(previous: seq<Target>, done: seq<Target>) {
    && NoDup(Services(done)) && Elements(Services(done)) <= Elements(Services(previous))
    && (NoDup(Services(previous)) ==> forall b :: b in done ==> Agree(previous, b))
  }

  lemma MatchedStep(previous: seq<Target>, next: seq<Target>, j: nat, before: Target)
    requires j < |next| && Matched(previous, next[..j])
    requires before in previous && before.service == next[j].service && SameTarget(before, next[j])
    requires next[j].service !in Elements(Services(next[..j]))
    ensures Matched(previous, next[..j + 1])
  {
    ServicesStep(next, j);
    NoDupConcat(Services(next[..j]), [next[j].service]);
    var i :| 0 <= i < |previous| && previous[i] == before;
    assert Services(previous)[i] == before.service;
    if NoDup(Services(previous)) {
      forall a | a in previous && a.service == next[j].service ensures SameTarget(a, next[j]) {
        TwiceNamed(previous, a, before);
      }
      forall b | b in next[..j + 1] ensures Agree(previous, b) {
        assert b in next[..j] || b == next[j];
      }
    }
  }

  // A service that is not left to match is new, or was already matched.
  lemma AbsentMeansChanged(previous: seq<Target>, next: seq<Target>, j: nat)
    requires j < |next|
    requires next[j].service !in Elements(Services(previous)) || next[j].service in Elements(Services(next[..j]))
    ensures !Unchanged(previous, next)
  {
    ServicesStep(next, j);
    if next[j].service in Elements(Services(next[..j])) {
      NoDupByIndex(Services(next));
      var k :| 0 <= k < j && Services(next[..j])[k] == next[j].service;
      assert Services(next)[k] == Services(next)[j];
    }
  }

  lemma AllMatched(previous: seq<Target>, next: seq<Target>)
    requires |previous| == |next| && Matched(previous, next)
    ensures Unchanged(previous, next) <==> Elements(Services(previous)) <= Elements(Services(next))
  {
    DistinctByCount(Services(previous));
    DistinctByCount(Services(next));
    if Elements(Services(previous)) <= Elements(Services(next)) {
      assert Elements(Services(previous)) == Elements(Services(next));
    }
  }

  lemma LengthsDiffer(previous: seq<Target>, next: seq<Target>)
    requires |previous| != |next|
    ensures !Unchanged(previous, next)
  {
    DistinctByCount(Services(previous));
    DistinctByCount(Services(next));
  }

  /** With lists of one length the map left over is empty exactly when every service
      was matched, and then neither list repeats one. */
  method AutopilotTargetsUnchanged(previous: seq<Target>, next: seq<Target>) returns (same: bool)
    ensures same <==> Unchanged(previous, next)
  {
    if |previous| != |next| {
      LengthsDiffer(previous, next);
      return false;
    }
    var left := ByService(previous);
    assert next[..0] == [];
    for j := 0 to |next|
      invariant left.Keys == Elements(Services(previous)) - Elements(Services(next[..j]))
      invariant forall id :: id in left ==> left[id] in previous && left[id].service == id
      invariant Matched(previous, next[..j])
    {
      if next[j].service !in left {
        AbsentMeansChanged(previous, next, j);
        return false;
      }
      var before := left[next[j].service];
      var equal := SameTargets(before, next[j]);
      if !equal {
        assert !Agree(previous, next[j]);
        return false;
      }
      ServicesStep(next, j);
      MatchedStep(previous, next, j, before);
      left := left - {next[j].service};
    }
    assert next[..|next|] == next;
    AllMatched(previous, next);
    assert |left| == 0 <==> left.Keys == {};
    return |left| == 0;
  }

  /** Whatever background failover accepts in a row keeps the targets of the plan that
      was reviewed: no sequence of accepted steps can drift. */
  lemma UnchangedIsAnEquivalence(a: seq<Target>, b: seq<Target>, c: seq<Target>)
    ensures NoDup(Services(a)) <==> Unchanged(a, a)
    ensures Unchanged(a, b) ==> Unchanged(b, a)
    ensures Unchanged(a, b) && Unchanged(b, c) ==> Unchanged(a, c)
  {
    if NoDup(Services(a)) {
      forall x, y | x in a && y in a && x.service == y.service ensures SameTarget(x, y) {
        TwiceNamed(a, x, y);
      }
    }
    if Unchanged(a, b) && Unchanged(b, c) {
      forall x, z | x in a && z in c && x.service == z.service ensures SameTarget(x, z) {
        var i :| 0 <= i < |a| && a[i] == x;
        assert Services(a)[i] in Elements(Services(b));
        var j :| 0 <= j < |b| && Services(b)[j] == x.service;
        assert Agree(a, b[j]) && Agree(b, z);
      }
    }
  }

  // ---- rollbackAppliedSettingsMatch ----

  datatype ServiceState = ServiceState(enabled: bool, mode: string, route: string, sources: seq<Id>)

  datatype Config = Config(
    stopped: bool,
    safeMode: bool,
    appliedRevision: int,
    hasAppliedPolicy: bool,
    hasPolicy: bool,
    applied: map<Id, ServiceState>)

  datatype PlanRoute = PlanRoute(service: Id, selected: string, sources: seq<Id>)

  datatype Plan = Plan(revision: int, routes: seq<PlanRoute>)

  function Selection(s: ServiceState): string {
    if s.route != "" then s.route else if s.mode != "" then s.mode else "auto"
  }

  predicate Comparable(cfg: Config, previous: Plan) {
    !cfg.stopped && !cfg.safeMode && cfg.appliedRevision == previous.revision && !cfg.hasAppliedPolicy && !cfg.hasPolicy
  }

  ghost predicate Enabled(cfg: Config, id: Id) {
    id in cfg.applied && cfg.applied[id].enabled
  }

  predicate Restores(cfg: Config, r: PlanRoute) {
    && r.service in cfg.applied && cfg.applied[r.service].enabled
    && Selection(cfg.applied[r.service]) == r.selected
    && multiset(cfg.applied[r.service].sources) == multiset(r.sources)
  }

  function Routed(routes: seq<PlanRoute>): (r: seq<Id>)
    ensures |r| == |routes| && forall i :: 0 <= i < |routes| ==> r[i] == routes[i].service
  {
    seq(|routes|, i requires 0 <= i < |routes| => routes[i].service)
  }

  lemma RoutedStep(routes: seq<PlanRoute>, i: nat)
    requires i < |routes|
    ensures Elements(Routed(routes[..i + 1])) == Elements(Routed(routes[..i])) + {routes[i].service}
    ensures NoDup(Routed(routes[..i + 1])) <==>
        NoDup(Routed(routes[..i])) && routes[i].service !in Elements(Routed(routes[..i]))
    ensures NoDup(Routed(routes)) ==> NoDup(Routed(routes[..i + 1]))
  {
    assert Routed(routes[..i + 1]) == Routed(routes[..i]) + [routes[i].service];
    NoDupConcat(Routed(routes[..i]), [routes[i].service]);
    assert Routed(routes) == Routed(routes[..i + 1]) + Routed(routes[i + 1..]);
    NoDupConcat(Routed(routes[..i + 1]), Routed(routes[i + 1..]));
  }

  method Restored(cfg: Config, route: PlanRoute) returns (ok: bool)
    ensures ok <==> Restores(cfg, route)
  {
    var state := if route.service in cfg.applied then cfg.applied[route.service] else ServiceState(false, "", "", []);
    var selected := state.route;
    if selected == "" {
      selected := state.mode;
    }
    if selected == "" {
      selected := "auto";
    }
    var same := SameStringSet(state.sources, route.sources);
    return state.enabled && selected == route.selected && same;
  }

  /** The routes are in non-empty bijection with the enabled applied services, each
      with its selection and its sources up to reordering. */
  ghost predicate InBijection(cfg: Config, routes: seq<PlanRoute>) {
    && |routes| > 0 && NoDup(Routed(routes))
    && (forall r :: r in routes ==> Restores(cfg, r))
    && forall id :: Enabled(cfg, id) ==> id in Routed(routes)
  }

  method RestoredOnce(cfg: Config, routes: seq<PlanRoute>) returns (ok: bool, seen: set<Id>)
    ensures ok <==> NoDup(Routed(routes)) && forall r :: r in routes ==> Restores(cfg, r)
    ensures ok ==> seen == Elements(Routed(routes))
  {
    seen := {};
    for i := 0 to |routes|
      invariant seen == Elements(Routed(routes[..i]))
      invariant NoDup(Routed(routes[..i]))
      invariant forall k :: 0 <= k < i ==> Restores(cfg, routes[k])
    {
      RoutedStep(routes, i);
      var restored := Restored(cfg, routes[i]);
      if !restored {
        return false, seen;
      }
      if routes[i].service in seen {
        return false, seen;
      }
      seen := seen + {routes[i].service};
    }
    assert routes[..|routes|] == routes;
    return true, seen;
  }

  method EnabledAreSeen(cfg: Config, seen: set<Id>) returns (ok: bool)
    ensures ok <==> forall id :: Enabled(cfg, id) ==> id in seen
  {
    var rest := cfg.applied.Keys;
    while rest != {}
      invariant rest <= cfg.applied.Keys
      invariant forall id :: Enabled(cfg, id) && id !in rest ==> id in seen
      decreases |rest|
    {
      var id := Pick(rest);
      if cfg.applied[id].enabled && id !in seen {
        assert Enabled(cfg, id);
        return false;
      }
      rest := rest - {id};
    }
    return true;
  }

  method RollbackAppliedSettingsMatch(cfg: Config, previous: Plan) returns (ok: bool)
    ensures ok <==> Comparable(cfg, previous) && InBijection(cfg, previous.routes)
  {
    if cfg.stopped || cfg.safeMode || cfg.appliedRevision != previous.revision || cfg.hasAppliedPolicy ||
      cfg.hasPolicy {
      return false;
    }
    var once, seen := RestoredOnce(cfg, previous.routes);
    if !once {
      return false;
    }
    var all := EnabledAreSeen(cfg, seen);
    if !all {
      return false;
    }
    DistinctByCount(Routed(previous.routes));
    return |seen| > 0;
  }

  /** So the applied settings determine the plan that may be restored: two plans that
      match them have the same services, selections and sources. */
  lemma MatchDeterminesThePlan(cfg: Config, a: Plan, b: Plan, i: nat)
    requires Comparable(cfg, a) && InBijection(cfg, a.routes)
    requires Comparable(cfg, b) && InBijection(cfg, b.routes)
    requires i < |a.routes|
    ensures a.revision == b.revision
    ensures exists r :: r in b.routes && r.service == a.routes[i].service && r.selected == a.routes[i].selected
              && multiset(r.sources) == multiset(a.routes[i].sources)
  {
    assert Restores(cfg, a.routes[i]) && Enabled(cfg, a.routes[i].service);
    var j :| 0 <= j < |b.routes| && Routed(b.routes)[j] == a.routes[i].service;
    assert Restores(cfg, b.routes[j]);
  }
}

/** Ranking by recorded service checks: the cross-multiplied comparison of smoothed
    success shares is an order, so the ranked list is the only sorted arrangement
    of its candidates. */
module Ranking {
  import opened Basics
  import opened Sorting

  type NodeId = int

  // Passes, attributed failures, and the median latency; 0 when it is unknown.
  datatype Stability = Stability(passes: nat, failures: nat, attempted: bool, latency: nat)

  const UNKNOWN := Stability(0, 0, false, 0)

  /** a has served more reliably than b: a higher smoothed success share, then more
      successes, then a known and lower latency. */
  predicate More(a: Stability, b: Stability) {
    var left := (a.passes + 1) * (b.passes + b.failures + 2);
    var right := (b.passes + 1) * (a.passes + a.failures + 2);
    if left != right then left > right
    else if a.passes != b.passes then a.passes > b.passes
    else if (a.latency == 0) != (b.latency == 0) then a.latency != 0
    else a.latency < b.latency
  }

  function Share(a: Stability): real {
    (a.passes + 1) as real / (a.passes + a.failures + 2) as real
  }

  lemma CrossMultiplied(n: int, d: int, m: int, e: int)
    requires d > 0 && e > 0
    ensures (n as real / d as real > m as real / e as real) == (n * e > m * d)
    ensures (n as real / d as real == m as real / e as real) == (n * e == m * d)
  {
  }

  /** The comparison without floating point is the comparison of the shares. */
  lemma MoreComparesShares(a: Stability, b: Stability)
    ensures Share(a) > Share(b) ==> More(a, b)
    ensures Share(a) < Share(b) ==> !More(a, b)
    ensures Share(a) == Share(b) ==> (More(a, b) <==>
      a.passes > b.passes || (a.passes == b.passes && a.latency != 0 && (b.latency == 0 || a.latency < b.latency)))
  {
    CrossMultiplied(a.passes + 1, a.passes + a.failures + 2, b.passes + 1, b.passes + b.failures + 2);
  }

  function ByStability(): ((Stability, Stability) -> bool) {
    (a, b) => More(a, b)
  }

  /** Asymmetric and negatively transitive: a strict weak order, so a sort by it
      has a meaning. */
  lemma MoreIsStrictWeak()
    ensures StrictWeak(ByStability())
  {
    forall a, b | ByStability()(a, b) ensures !ByStability()(b, a) {
      MoreComparesShares(a, b);
      MoreComparesShares(b, a);
    }
    forall a, b, c | !ByStability()(a, b) && !ByStability()(b, c) ensures !ByStability()(a, c) {
      MoreComparesShares(a, b);
      MoreComparesShares(b, c);
      MoreComparesShares(a, c);
    }
  }

  // ---- the record of one node ----

  datatype Verdict = Pass | Blocked | Misrouted | Partial | Failed | OtherVerdict

  // A stored check of one node. `attributed` says that the shared classification
  // calls it a failure of the service itself.
  datatype Check = Check(service: int, profile: int, singBox: bool, checkedAt: int, probe: Option<int>,
                         verdict: Verdict, serviceLevel: bool, directLeak: bool, attributed: bool)

  const WINDOW: int := 86400

  predicate InScope(c: Check, service: int, profile: int, now: int) {
    c.service == service && c.profile == profile && c.singBox && c.checkedAt <= now && now - c.checkedAt <= WINDOW
  }

  /** A check is counted once: in scope, and no earlier one in scope has its probe. */
  predicate Counted(history: seq<Check>, i: nat, service: int, profile: int, now: int)
    requires i < |history|
  {
    && InScope(history[i], service, profile, now)
    && (history[i].probe.Some? ==>
          forall j :: 0 <= j < i && InScope(history[j], service, profile, now) ==> history[j].probe != history[i].probe)
  }

  predicate IsPass(c: Check) {
    c.verdict.Pass? && c.serviceLevel && !c.directLeak
  }

  predicate IsFailure(c: Check) {
    !c.verdict.Pass? && c.attributed
  }

  ghost function Passes(h: seq<Check>, n: nat, service: int, profile: int, now: int): set<nat>
    requires n <= |h|
  {
    set i: nat | i < n && Counted(h, i, service, profile, now) && IsPass(h[i])
  }

  ghost function Failures(h: seq<Check>, n: nat, service: int, profile: int, now: int): set<nat>
    requires n <= |h|
  {
    set i: nat | i < n && Counted(h, i, service, profile, now) && IsFailure(h[i])
  }

  ghost predicate SomeAttempt(h: seq<Check>, n: nat, service: int, profile: int, now: int)
    requires n <= |h|
  {
    exists i :: 0 <= i < n && Counted(h, i, service, profile, now) && !h[i].verdict.OtherVerdict?
  }

  /** What the checks before n add up to. */
  ghost predicate AddsUp(h: seq<Check>, n: nat, service: int, profile: int, now: int, r: Stability)
    requires n <= |h|
  {
    && r.passes == |Passes(h, n, service, profile, now)|
    && r.failures == |Failures(h, n, service, profile, now)|
    && r.attempted == SomeAttempt(h, n, service, profile, now)
    && r.latency == 0
  }

  function Add(r: Stability, c: Check): Stability {
    r.(attempted := r.attempted || !c.verdict.OtherVerdict?,
       passes := if IsPass(c) then r.passes + 1 else r.passes,
       failures := if IsFailure(c) then r.failures + 1 else r.failures)
  }

  lemma AddStep(h: seq<Check>, i: nat, service: int, profile: int, now: int, r: Stability)
    requires i < |h| && AddsUp(h, i, service, profile, now, r)
    ensures AddsUp(h, i + 1, service, profile, now, if Counted(h, i, service, profile, now) then Add(r, h[i]) else r)
  {
    PassStep(h, i, service, profile, now);
    FailureStep(h, i, service, profile, now);
  }

  ghost predicate SeenProbes(h: seq<Check>, n: nat, service: int, profile: int, now: int, seen: set<int>)
    requires n <= |h|
  {
    forall p :: p in seen <==> exists j :: 0 <= j < n && InScope(h[j], service, profile, now) && h[j].probe == Some(p)
  }

  // A check in scope is counted exactly when its probe is new.
  lemma ProbeStep(h: seq<Check>, i: nat, service: int, profile: int, now: int, seen: set<int>)
    requires i < |h| && SeenProbes(h, i, service, profile, now, seen)
    ensures !InScope(h[i], service, profile, now) ==>
              !Counted(h, i, service, profile, now) && SeenProbes(h, i + 1, service, profile, now, seen)
    ensures InScope(h[i], service, profile, now) && h[i].probe.None? ==>
              Counted(h, i, service, profile, now) && SeenProbes(h, i + 1, service, profile, now, seen)
    ensures InScope(h[i], service, profile, now) && h[i].probe.Some? ==>
              && (Counted(h, i, service, profile, now) <==> h[i].probe.value !in seen)
              && SeenProbes(h, i + 1, service, profile, now, seen + {h[i].probe.value})
              && (h[i].probe.value in seen ==> SeenProbes(h, i + 1, service, profile, now, seen))
  {
    if InScope(h[i], service, profile, now) && h[i].probe.Some? {
      var p := h[i].probe.value;
      if p in seen {
        assert seen + {p} == seen;
      } else {
        forall j | 0 <= j < i && InScope(h[j], service, profile, now) ensures h[j].probe != h[i].probe {
          assert h[j].probe == Some(p) ==> p in seen;
        }
      }
    }
  }

  /** The summary counts every counted pass and failure exactly once. */
  method NodeStability(history: seq<Check>, service: int, profile: int, now: int) returns (result: Stability)
    ensures AddsUp(history, |history|, service, profile, now, result)
  {
    result := UNKNOWN;
    var seen: set<int> := {};
    assert Passes(history, 0, service, profile, now) == {} && Failures(history, 0, service, profile, now) == {};
    for i := 0 to |history|
      invariant SeenProbes(history, i, service, profile, now, seen)
      invariant AddsUp(history, i, service, profile, now, result)
    {
      var c := history[i];
      ProbeStep(history, i, service, profile, now, seen);
      AddStep(history, i, service, profile, now, result);
      if !InScope(c, service, profile, now) {
        continue;
      }
      if c.probe.Some? {
        if c.probe.value in seen {
          continue;
        }
        seen := seen + {c.probe.value};
      }
      ghost var before := result;
      if !c.verdict.OtherVerdict? {
        result := result.(attempted := true);
      }
      if c.verdict.Pass? {
        if c.serviceLevel && !c.directLeak {
          result := result.(passes := result.passes + 1);
        }
      } else if c.attributed {
        result := result.(failures := result.failures + 1);
      }
      assert result == Add(before, c);
    }
  }

  lemma PassStep(h: seq<Check>, i: nat, service: int, profile: int, now: int)
    requires i < |h|
    ensures |Passes(h, i + 1, service, profile, now)| ==
            |Passes(h, i, service, profile, now)|
            + if Counted(h, i, service, profile, now) && IsPass(h[i]) then 1 else 0
  {
    assert Passes(h, i + 1, service, profile, now) == Passes(h, i, service, profile, now)
      + if Counted(h, i, service, profile, now) && IsPass(h[i]) then {i} else {};
  }

  lemma FailureStep(h: seq<Check>, i: nat, service: int, profile: int, now: int)
    requires i < |h|
    ensures |Failures(h, i + 1, service, profile, now)| ==
            |Failures(h, i, service, profile, now)|
            + if Counted(h, i, service, profile, now) && IsFailure(h[i]) then 1 else 0
  {
    assert Failures(h, i + 1, service, profile, now) == Failures(h, i, service, profile, now)
      + if Counted(h, i, service, profile, now) && IsFailure(h[i]) then {i} else {};
  }

  // The check is of this service on this network by sing-box, of the last day, and the
  // first of its probe.
  ghost predicate CountsNext(h: seq<Check>, x: Check, service: int, profile: int, now: int) {
    && x.service == service && x.profile == profile && x.singBox && now - 86400 <= x.checkedAt <= now
    && (x.probe.Some? ==>
          forall j :: 0 <= j < |h| && InScope(h[j], service, profile, now) ==> h[j].probe != x.probe)
  }

  lemma CountedBehind(h: seq<Check>, x: Check, i: nat, service: int, profile: int, now: int)
    requires i <= |h|
    ensures Counted(h + [x], i, service, profile, now) <==>
            if i < |h| then Counted(h, i, service, profile, now) else CountsNext(h, x, service, profile, now)
  {
    assert forall j :: 0 <= j < |h| ==> (h + [x])[j] == h[j];
  }

  /** What one more check adds: nothing unless it counts, and then one pass or one failure. */
  lemma OneMoreCheck(h: seq<Check>, x: Check, service: int, profile: int, now: int)
    ensures |Passes(h + [x], |h| + 1, service, profile, now)| ==
            |Passes(h, |h|, service, profile, now)|
            + if CountsNext(h, x, service, profile, now) && x.verdict.Pass? && x.serviceLevel && !x.directLeak
              then 1 else 0
    ensures |Failures(h + [x], |h| + 1, service, profile, now)| ==
            |Failures(h, |h|, service, profile, now)|
            + if CountsNext(h, x, service, profile, now) && !x.verdict.Pass? && x.attributed then 1 else 0
  {
    forall i: nat | i <= |h|
      ensures Counted(h + [x], i, service, profile, now) <==>
              if i < |h| then Counted(h, i, service, profile, now) else CountsNext(h, x, service, profile, now)
    {
      CountedBehind(h, x, i, service, profile, now);
    }
    assert Passes(h + [x], |h|, service, profile, now) == Passes(h, |h|, service, profile, now);
    assert Failures(h + [x], |h|, service, profile, now) == Failures(h, |h|, service, profile, now);
    PassStep(h + [x], |h|, service, profile, now);
    FailureStep(h + [x], |h|, service, profile, now);
  }

  // ---- the ranked list ----

  type Scores = map<NodeId, Stability>

  // A Go map read: an id without a record has the zero record.
  function Score(scores: Scores, id: NodeId): (r: Stability)
    ensures id in scores ==> r == scores[id]
    ensures id !in scores ==> r.passes == r.failures == r.latency == 0
  {
    if id in scores then scores[id] else UNKNOWN
  }

  predicate RanksBefore(scores: Scores, keep: Option<NodeId>, a: NodeId, b: NodeId) {
    if keep.Some? && (a == keep.value) != (b == keep.value) then a == keep.value
    else if More(Score(scores, a), Score(scores, b)) then true
    else if More(Score(scores, b), Score(scores, a)) then false
    else a < b
  }

  function Ranked(scores: Scores, keep: Option<NodeId>): ((NodeId, NodeId) -> bool) {
    (a, b) => RanksBefore(scores, keep, a, b)
  }

  /** The sort comparator is a strict total order on ids. */
  lemma RankingIsTotal(scores: Scores, keep: Option<NodeId>)
    ensures StrictWeak(Ranked(scores, keep)) && Total(Ranked(scores, keep))
  {
    MoreIsStrictWeak();
    var less := Ranked(scores, keep);
    forall a, b | less(a, b) ensures !less(b, a) {
      assert ByStability()(Score(scores, a), Score(scores, b)) ==> !ByStability()(Score(scores, b), Score(scores, a));
    }
    forall a, b, c | !less(a, b) && !less(b, c) ensures !less(a, c) {
      RankingIsNegativelyTransitive(scores, keep, a, b, c);
    }
    forall a, b | a != b ensures less(a, b) || less(b, a) {
      assert ByStability()(Score(scores, a), Score(scores, b)) ==> !ByStability()(Score(scores, b), Score(scores, a));
    }
  }

  lemma RankingIsNegativelyTransitive(scores: Scores, keep: Option<NodeId>, a: NodeId, b: NodeId, c: NodeId)
    requires !RanksBefore(scores, keep, a, b) && !RanksBefore(scores, keep, b, c)
    ensures !RanksBefore(scores, keep, a, c)
  {
    MoreIsStrictWeak();
    var x, y, z := Score(scores, a), Score(scores, b), Score(scores, c);
    var m := ByStability();
    assert !m(x, y) && !m(y, z) ==> !m(x, z);
    assert !m(z, x) && !m(x, y) ==> !m(z, y);
    assert !m(y, z) && !m(z, x) ==> !m(y, x);
    assert m(x, y) ==> !m(y, x);
    assert m(y, z) ==> !m(z, y);
    assert m(x, z) ==> !m(z, x);
  }

  function Rank(scores: Scores, keep: Option<NodeId>, ids: seq<NodeId>): (r: seq<NodeId>)
    ensures multiset(r) == multiset(ids)
  {
    StableSort(Ranked(scores, keep), ids)
  }

  /** The ranked list is the one sorted permutation of the ids: any other sorted
      arrangement of the same ids, from any input order, is the same list. */
  lemma RankIsTheSortedPermutation(scores: Scores, keep: Option<NodeId>, ids: seq<NodeId>, other: seq<NodeId>)
    requires multiset(other) == multiset(ids)
    ensures Ordered(Ranked(scores, keep), Rank(scores, keep, ids))
    ensures Ordered(Ranked(scores, keep), other) ==> other == Rank(scores, keep, ids)
    ensures Rank(scores, keep, other) == Rank(scores, keep, ids)
  {
    RankingIsTotal(scores, keep);
    var less := Ranked(scores, keep);
    SortIsOrdered(less, ids);
    SortForgetsInputOrder(less, other, ids);
    if Ordered(less, other) {
      SortedIsUnique(less, other, Rank(scores, keep, ids));
    }
  }

  /** A healthy current node always comes first. */
  lemma KeptNodeIsFirst(scores: Scores, keep: NodeId, ids: seq<NodeId>)
    requires keep in ids
    ensures |Rank(scores, Some(keep), ids)| > 0 && Rank(scores, Some(keep), ids)[0] == keep
  {
    var r := Rank(scores, Some(keep), ids);
    SameMultisetSameElements(ids, r);
    RankIsTheSortedPermutation(scores, Some(keep), ids, ids);
    var i :| 0 <= i < |r| && r[i] == keep;
    assert i > 0 ==> !Ranked(scores, Some(keep))(r[i], r[0]);
  }

  /** A more stable node never stands behind a less stable one, the kept one apart;
      between two that are equally stable the lower id comes first. */
  lemma RankFollowsStability(scores: Scores, keep: Option<NodeId>, ids: seq<NodeId>, i: nat, j: nat)
    requires i < j < |Rank(scores, keep, ids)|
    ensures var r := Rank(scores, keep, ids);
            || (keep.Some? && r[i] == keep.value)
            || (!More(Score(scores, r[j]), Score(scores, r[i])) &&
                (!More(Score(scores, r[i]), Score(scores, r[j])) ==> r[i] <= r[j]))
  {
    RankIsTheSortedPermutation(scores, keep, ids, ids);
    var r := Rank(scores, keep, ids);
    assert !Ranked(scores, keep)(r[j], r[i]);
    MoreIsStrictWeak();
    assert ByStability()(Score(scores, r[j]), Score(scores, r[i])) ==>
        !ByStability()(Score(scores, r[i]), Score(scores, r[j]));
  }

  /** Fills the scores and sorts a copy of the ids. */
  method RankAutonomyNodes(histories: map<NodeId, seq<Check>>, latencies: map<NodeId, nat>, ids: seq<NodeId>,
                           keep: Option<NodeId>, service: int, profile: int, now: int)
    returns (ranked: seq<NodeId>, scores: Scores)
    ensures forall id :: id in scores <==> id in ids
    ensures forall id :: id in ids ==>
      var h := if id in histories then histories[id] else [];
      && scores[id].passes == |Passes(h, |h|, service, profile, now)|
      && scores[id].failures == |Failures(h, |h|, service, profile, now)|
      && scores[id].latency == if id in latencies then Max(1, latencies[id]) else 0
    ensures ranked == Rank(scores, keep, ids)
  {
    var score: Scores := map[];
    for k := 0 to |ids|
      invariant forall id :: id in score <==> id in ids[..k]
      invariant forall id :: id in score ==>
        var h := if id in histories then histories[id] else [];
        && score[id].passes == |Passes(h, |h|, service, profile, now)|
        && score[id].failures == |Failures(h, |h|, service, profile, now)|
        && score[id].latency == if id in latencies then Max(1, latencies[id]) else 0
    {
      assert ids[..k + 1] == ids[..k] + [ids[k]];
      var value := NodeStability(if ids[k] in histories then histories[ids[k]] else [], service, profile, now);
      if ids[k] in latencies {
        value := value.(latency := Max(1, latencies[ids[k]]));
      }
      score := score[ids[k] := value];
    }
    assert ids[..|ids|] == ids;
    scores := score;
    ranked := StableSort(Ranked(score, keep), ids);
  }

  // ---- candidates by the record of their sources ----

  type SourceTotals = map<int, Stability>

  datatype Node = Node(id: NodeId, origins: seq<int>, record: Stability)

  /** The record of a source: the sums over all nodes that come from it. */
  function SourceRecord(nodes: seq<Node>, source: int): Stability {
    if |nodes| == 0 then UNKNOWN
    else
      var before := SourceRecord(nodes[..|nodes| - 1], source);
      AddIf(source in nodes[|nodes| - 1].origins, before, nodes[|nodes| - 1].record)
  }

  function AddIf(has: bool, total: Stability, record: Stability): Stability {
    if has then total.(passes := total.passes + record.passes, failures := total.failures + record.failures) else total
  }

  predicate HasSource(nodes: seq<Node>, source: int) {
    exists n :: n in nodes && source in n.origins
  }

  /** A source listed twice by one node counts that node once. */
  method TotalSources(nodes: seq<Node>) returns (totals: SourceTotals)
    ensures forall o :: o in totals <==> HasSource(nodes, o)
    ensures forall o :: o in totals ==> totals[o] == SourceRecord(nodes, o)
  {
    totals := map[];
    for i := 0 to |nodes|
      invariant forall o :: o in totals <==> HasSource(nodes[..i], o)
      invariant forall o :: o in totals ==> totals[o] == SourceRecord(nodes[..i], o)
    {
      var n := nodes[i];
      var seen: set<int> := {};
      ghost var before := totals;
      for j := 0 to |n.origins|
        invariant forall o :: o in seen <==> o in n.origins[..j]
        invariant forall o :: o in totals <==> o in before || o in seen
        invariant forall o :: o in totals ==>
          totals[o] == AddIf(o in seen, if o in before then before[o] else UNKNOWN, n.record)
      {
        var o := n.origins[j];
        assert n.origins[..j + 1] == n.origins[..j] + [o];
        if o in seen {
          continue;
        }
        seen := seen + {o};
        var total := if o in totals then totals[o] else UNKNOWN;
        totals := totals[o := total.(passes := total.passes + n.record.passes,
          failures := total.failures + n.record.failures)];
      }
      assert n.origins[..|n.origins|] == n.origins;
      NodeAddsToItsSources(nodes, i);
    }
    assert nodes[..|nodes|] == nodes;
  }

  lemma NodeAddsToItsSources(nodes: seq<Node>, i: nat)
    requires i < |nodes|
    ensures forall o :: HasSource(nodes[..i + 1], o) <==> HasSource(nodes[..i], o) || o in nodes[i].origins
    ensures forall o :: SourceRecord(nodes[..i + 1], o) ==
                        AddIf(o in nodes[i].origins, SourceRecord(nodes[..i], o), nodes[i].record)
    ensures forall o :: !HasSource(nodes[..i], o) ==> SourceRecord(nodes[..i], o) == UNKNOWN
  {
    assert nodes[..i + 1] == nodes[..i] + [nodes[i]];
    assert nodes[..i + 1][..i] == nodes[..i];
    forall o | !HasSource(nodes[..i], o) ensures SourceRecord(nodes[..i], o) == UNKNOWN {
      NoSourceNoRecord(nodes[..i], o);
    }
  }

  lemma {:induction false} NoSourceNoRecord(nodes: seq<Node>, o: int)
    requires !HasSource(nodes, o)
    ensures SourceRecord(nodes, o) == UNKNOWN
  {
    if |nodes| > 0 {
      assert nodes[|nodes| - 1] in nodes;
      NoSourceNoRecord(nodes[..|nodes| - 1], o);
    }
  }

  /** The best record among a candidate's sources. */
  method BestSource(origins: seq<int>, totals: SourceTotals) returns (best: Stability)
    requires forall k :: 0 <= k < |origins| ==> origins[k] in totals
    requires forall o :: o in totals ==> totals[o] == Stability(totals[o].passes, totals[o].failures, false, 0)
    ensures origins == [] ==> best == UNKNOWN
    ensures origins != [] ==> exists k :: 0 <= k < |origins| && best == totals[origins[k]]
    ensures forall k :: 0 <= k < |origins| ==> !More(totals[origins[k]], best)
  {
    best := UNKNOWN;
    MoreIsStrictWeak();
    for i := 0 to |origins|
      invariant i == 0 ==> best == UNKNOWN
      invariant i > 0 ==> exists k :: 0 <= k < i && best == totals[origins[k]]
      invariant forall k :: 0 <= k < i ==> !More(totals[origins[k]], best)
    {
      var s := totals[origins[i]];
      assert !ByStability()(s, s);
      if i == 0 || More(s, best) {
        forall k | 0 <= k < i ensures !More(totals[origins[k]], s) {
          assert ByStability()(s, best);
          assert !ByStability()(best, s) && !ByStability()(totals[origins[k]], best);
        }
        best := s;
      }
    }
  }

  predicate TriedBefore(best: Scores, attempted: set<NodeId>, a: NodeId, b: NodeId) {
    if More(Score(best, a), Score(best, b)) || More(Score(best, b), Score(best, a))
    then More(Score(best, a), Score(best, b))
    else if (a in attempted) != (b in attempted) then a !in attempted
    else a < b
  }

  function CandidateOrder(best: Scores, attempted: set<NodeId>): ((NodeId, NodeId) -> bool) {
    (a, b) => TriedBefore(best, attempted, a, b)
  }

  /** Candidates have one sorted order too: by their sources' record, then the
      unchecked first, then by id. */
  lemma CandidateOrderIsTotal(best: Scores, attempted: set<NodeId>)
    ensures StrictWeak(CandidateOrder(best, attempted)) && Total(CandidateOrder(best, attempted))
  {
    MoreIsStrictWeak();
    var less, m := CandidateOrder(best, attempted), ByStability();
    forall a, b | less(a, b) ensures !less(b, a) {
      assert m(Score(best, a), Score(best, b)) ==> !m(Score(best, b), Score(best, a));
    }
    forall a, b, c | !less(a, b) && !less(b, c) ensures !less(a, c) {
      CandidateOrderIsNegativelyTransitive(best, attempted, a, b, c);
    }
  }

  lemma CandidateOrderIsNegativelyTransitive(best: Scores, attempted: set<NodeId>, a: NodeId, b: NodeId, c: NodeId)
    requires !TriedBefore(best, attempted, a, b) && !TriedBefore(best, attempted, b, c)
    ensures !TriedBefore(best, attempted, a, c)
  {
    MoreIsStrictWeak();
    var x, y, z := Score(best, a), Score(best, b), Score(best, c);
    var m := ByStability();
    assert !m(x, y) && !m(y, z) ==> !m(x, z);
    assert !m(z, x) && !m(x, y) ==> !m(z, y);
    assert !m(y, z) && !m(z, x) ==> !m(y, x);
    assert m(x, y) ==> !m(y, x);
    assert m(y, z) ==> !m(z, y);
    assert m(x, z) ==> !m(z, x);
  }

  /** Where the candidates stand: none behind one with a worse record; among equal records
      no unchecked one behind a checked one; and then the lower id first. */
  ghost predicate InCandidateOrder(best: Scores, attempted: set<NodeId>, r: seq<NodeId>) {
    forall i, j :: 0 <= i < j < |r| ==>
      && !More(Score(best, r[j]), Score(best, r[i]))
      && (!More(Score(best, r[i]), Score(best, r[j])) ==>
            && (r[i] in attempted ==> r[j] in attempted)
            && ((r[i] in attempted <==> r[j] in attempted) ==> r[i] <= r[j]))
  }

  /** The comparator's sorted list stands like that. */
  lemma CandidatesFollowTheirSources(best: Scores, attempted: set<NodeId>, ids: seq<NodeId>)
    ensures InCandidateOrder(best, attempted, StableSort(CandidateOrder(best, attempted), ids))
  {
    CandidateOrderIsTotal(best, attempted);
    SortIsOrdered(CandidateOrder(best, attempted), ids);
    MoreIsStrictWeak();
    var r := StableSort(CandidateOrder(best, attempted), ids);
    forall i, j | 0 <= i < j < |r|
      ensures !More(Score(best, r[j]), Score(best, r[i]))
      ensures !More(Score(best, r[i]), Score(best, r[j])) ==>
                && (r[i] in attempted ==> r[j] in attempted)
                && ((r[i] in attempted <==> r[j] in attempted) ==> r[i] <= r[j])
    {
      assert !CandidateOrder(best, attempted)(r[j], r[i]);
    }
  }

  /** So the order of candidates depends on their set alone. */
  lemma CandidateOrderForgetsInput(best: Scores, attempted: set<NodeId>, ids: seq<NodeId>, other: seq<NodeId>)
    requires multiset(ids) == multiset(other)
    ensures StableSort(CandidateOrder(best, attempted), ids) == StableSort(CandidateOrder(best, attempted), other)
  {
    CandidateOrderIsTotal(best, attempted);
    SortForgetsInputOrder(CandidateOrder(best, attempted), ids, other);
  }

  lemma {:induction false} SourceRecordIsPlain(nodes: seq<Node>, o: int)
    ensures !SourceRecord(nodes, o).attempted && SourceRecord(nodes, o).latency == 0
  {
    if |nodes| > 0 {
      SourceRecordIsPlain(nodes[..|nodes| - 1], o);
    }
  }

  /** r is what the sources of a node say for it: the record of one of them, and none
      has a better one; nothing for a node without sources. */
  ghost predicate SourcesSay(nodes: seq<Node>, n: Node, r: Stability) {
    && (n.origins == [] ==> r == UNKNOWN)
    && (n.origins != [] ==> exists k :: 0 <= k < |n.origins| && r == SourceRecord(nodes, n.origins[k]))
    && forall k :: 0 <= k < |n.origins| ==> !More(SourceRecord(nodes, n.origins[k]), r)
  }

  method BestRecords(nodes: seq<Node>) returns (best: Scores)
    requires forall i, j :: 0 <= i < j < |nodes| ==> nodes[i].id != nodes[j].id
    ensures forall i :: 0 <= i < |nodes| ==> nodes[i].id in best && SourcesSay(nodes, nodes[i], best[nodes[i].id])
    ensures forall id :: id in best ==> exists i :: 0 <= i < |nodes| && nodes[i].id == id
  {
    var totals := TotalSources(nodes);
    best := map[];
    for i := 0 to |nodes|
      invariant forall j :: 0 <= j < i ==> nodes[j].id in best && SourcesSay(nodes, nodes[j], best[nodes[j].id])
      invariant forall id :: id in best ==> exists j :: 0 <= j < i && nodes[j].id == id
    {
      var n := nodes[i];
      forall k | 0 <= k < |n.origins| ensures n.origins[k] in totals {
        var o: int := n.origins[k];
        assert n in nodes && o in n.origins;
        assert HasSource(nodes, o);
      }
      forall o | o in totals ensures totals[o] == Stability(totals[o].passes, totals[o].failures, false, 0) {
        SourceRecordIsPlain(nodes, o);
      }
      var b := BestSource(n.origins, totals);
      best := best[n.id := b];
    }
  }

  /** The candidates of the bounded rounds: the sorted arrangement by the best record
      among their sources, the unchecked first, then by id. */
  method OrderAutonomyCandidates(nodes: seq<Node>, ids: seq<NodeId>)
    returns (ordered: seq<NodeId>, best: Scores, attempted: set<NodeId>)
    requires forall i, j :: 0 <= i < j < |nodes| ==> nodes[i].id != nodes[j].id
    ensures forall i :: 0 <= i < |nodes| ==> nodes[i].id in best && SourcesSay(nodes, nodes[i], best[nodes[i].id])
    ensures forall id :: id in attempted <==>
        exists i :: 0 <= i < |nodes| && nodes[i].id == id && nodes[i].record.attempted
    ensures ordered == StableSort(CandidateOrder(best, attempted), ids)
    ensures multiset(ordered) == multiset(ids)
    ensures InCandidateOrder(best, attempted, ordered)
  {
    best := BestRecords(nodes);
    attempted := {};
    for i := 0 to |nodes|
      invariant forall id :: id in attempted <==>
          exists j :: 0 <= j < i && nodes[j].id == id && nodes[j].record.attempted
    {
      if nodes[i].record.attempted {
        attempted := attempted + {nodes[i].id};
      }
    }
    CandidatesFollowTheirSources(best, attempted, ids);
    ordered := StableSort(CandidateOrder(best, attempted), ids);
  }
}

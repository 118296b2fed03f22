/** The persisted work list of one service: a frozen consumed prefix and a
    pending suffix that is pruned, extended and reordered between rounds. */
module Traversals {
  import opened Basics
  import opened Sorting

  // Node ids with their string order, traversal versions as injective digests.
  type NodeId = int
  type Version = int

  const MAX_NODES: nat := 512

  datatype Traversal = Traversal(
    version: Version,
    ordered: seq<NodeId>,
    cursor: int,
    exhausted: bool,
    halted: bool,
    retryAt: Option<int>,
    standardRoutesTried: bool)

  /** What the document validator demands of a stored traversal. */
  predicate ValidTraversal(t: Traversal) {
    && |t.ordered| <= MAX_NODES
    && 0 <= t.cursor <= |t.ordered|
    && t.exhausted == (t.cursor == |t.ordered|)
    && NoDup(t.ordered)
  }

  predicate ValidOption(search: Option<Traversal>) {
    search.Some? ==> ValidTraversal(search.value)
  }

  function Consumed(t: Traversal): seq<NodeId>
    requires ValidTraversal(t)
  {
    t.ordered[..t.cursor]
  }

  function Pending(t: Traversal): seq<NodeId>
    requires ValidTraversal(t)
  {
    t.ordered[t.cursor..]
  }

  /** One traversal carried on: nothing consumed is reordered, dropped or undone. */
  ghost predicate Continues(before: Traversal, after: Traversal) {
    && ValidTraversal(before) && ValidTraversal(after)
    && after.version == before.version
    && before.cursor <= after.cursor
    && after.ordered[..before.cursor] == Consumed(before)
    && (before.standardRoutesTried ==> after.standardRoutesTried)
  }

  lemma ContinuesIsTransitive(a: Traversal, b: Traversal, c: Traversal)
    requires Continues(a, b) && Continues(b, c)
    ensures Continues(a, c)
  {
  }

  // ---- preparing a traversal for a round ----

  function AppendNew(ordered: seq<NodeId>, added: seq<NodeId>): (r: seq<NodeId>)
    decreases |added|
  {
    if |added| == 0 then ordered
    else if added[0] !in ordered && |ordered| < MAX_NODES then AppendNew(ordered + [added[0]], added[1..])
    else AppendNew(ordered, added[1..])
  }

  function Among(ids: seq<NodeId>): NodeId -> bool {
    x => x in ids
  }

  /** The kept list: consumed prefix, pending ids still offered in their order,
      then the newly offered ids in id order while there is room. */
  function Refreshed(t: Traversal, ids: seq<NodeId>): Traversal
    requires ValidTraversal(t)
  {
    var ordered := AppendNew(Consumed(t) + Filter(Among(ids), Pending(t)), SortIds(ids));
    t.(ordered := ordered, exhausted := t.cursor == |ordered|)
  }

  function NewTraversal(version: Version, ids: seq<NodeId>): Traversal {
    Traversal(version, ids, 0, |ids| == 0, false, None, false)
  }

  // The recheck interval of an exhausted, unhalted traversal has passed.
  predicate RetryDue(t: Traversal, now: int) {
    !t.halted && t.exhausted && t.retryAt.Some? && now >= t.retryAt.value
  }

  /** The prepared traversal and whether it replaced the stored one. */
  function Prepared(search: Option<Traversal>, version: Version, ids: seq<NodeId>, now: int): (Traversal, bool)
    requires ValidOption(search)
  {
    if search.None? || search.value.version != version then (NewTraversal(version, ids), true)
    else if RetryDue(Refreshed(search.value, ids), now) then (NewTraversal(version, ids), true)
    else (Refreshed(search.value, ids), false)
  }

  method PrepareTraversal(search: Option<Traversal>, version: Version, ids: seq<NodeId>, now: int)
    returns (t: Traversal, replaced: bool)
    requires ValidOption(search)
    ensures (t, replaced) == Prepared(search, version, ids, now)
    decreases search.Some?
  {
    if search.None? || search.value.version != version {
      return NewTraversal(version, ids), true;
    }
    t := search.value;
    var ordered := t.ordered[..t.cursor];
    ghost var pending := Pending(t);
    for i := t.cursor to |t.ordered|
      invariant ordered == Consumed(t) + Filter(Among(ids), pending[..i - t.cursor])
    {
      var id := t.ordered[i];
      FilterStep(Among(ids), pending, i - t.cursor);
      if id in ids {
        ordered := ordered + [id];
      }
    }
    assert pending[..|t.ordered| - t.cursor] == pending;
    var added := SortIds(ids);
    ghost var start := ordered;
    for i := 0 to |added|
      invariant AppendNew(ordered, added[i..]) == AppendNew(start, added)
    {
      assert added[i..][1..] == added[i + 1..];
      if added[i] !in ordered && |ordered| < MAX_NODES {
        ordered := ordered + [added[i]];
      }
    }
    t := t.(ordered := ordered, exhausted := t.cursor == |ordered|);
    replaced := false;
    if !t.halted && t.exhausted && t.retryAt.Some? && now >= t.retryAt.value {
      t, replaced := PrepareTraversal(None, version, ids, now);
    }
  }

  lemma {:induction false} AppendNewMembers(ordered: seq<NodeId>, added: seq<NodeId>)
    requires NoDup(ordered) && |ordered| <= MAX_NODES
    ensures var r := AppendNew(ordered, added);
            && ordered <= r && (forall x :: x in ordered ==> x in r) && NoDup(r) && |r| <= MAX_NODES
            && (forall x :: x in r ==> x in ordered || x in added)
            && (|r| < MAX_NODES ==> forall x :: x in added ==> x in r)
            && (r == ordered <==> |ordered| == MAX_NODES || forall x :: x in added ==> x in ordered)
    decreases |added|
  {
    if |added| > 0 {
      assert forall x :: x in added <==> x == added[0] || x in added[1..];
      if added[0] !in ordered && |ordered| < MAX_NODES {
        AppendNewMembers(ordered + [added[0]], added[1..]);
        assert ordered <= ordered + [added[0]];
      } else {
        AppendNewMembers(ordered, added[1..]);
      }
    }
  }

  lemma ConsumedAndPendingAreDisjoint(t: Traversal)
    requires ValidTraversal(t)
    ensures t.ordered == Consumed(t) + Pending(t)
    ensures NoDup(Consumed(t)) && NoDup(Pending(t))
    ensures forall x :: x in Consumed(t) ==> x !in Pending(t)
  {
    assert t.ordered == Consumed(t) + Pending(t);
    NoDupConcat(Consumed(t), Pending(t));
  }

  lemma PrefixAndFilterNoDup(t: Traversal, ids: seq<NodeId>)
    requires ValidTraversal(t)
    ensures NoDup(Consumed(t) + Filter(Among(ids), Pending(t)))
    ensures |Consumed(t) + Filter(Among(ids), Pending(t))| <= MAX_NODES
  {
    ConsumedAndPendingAreDisjoint(t);
    FilterKeepsNoDup(Among(ids), Pending(t));
    FilterMembers(Among(ids), Pending(t));
    NoDupConcat(Consumed(t), Filter(Among(ids), Pending(t)));
  }

  /** The kept traversal: what is consumed stays as it is, and offered pending
      ids keep their order ahead of the new ones. */
  lemma RefreshedKeepsConsumed(t: Traversal, ids: seq<NodeId>)
    requires ValidTraversal(t)
    ensures var r := Refreshed(t, ids);
            && Continues(t, r) && r.cursor == t.cursor && r.halted == t.halted
            && Filter(Among(ids), Pending(t)) <= Pending(r)
            && (|r.ordered| < MAX_NODES ==> forall x :: x in ids ==> x in r.ordered)
  {
    var kept := Filter(Among(ids), Pending(t));
    var base := Consumed(t) + kept;
    SortIdsIsSorted(ids);
    PrefixAndFilterNoDup(t, ids);
    AppendNewMembers(base, SortIds(ids));
    var r := Refreshed(t, ids);
    PrefixOfExtension(Consumed(t), kept, r.ordered);
  }

  lemma PrefixOfExtension(a: seq<NodeId>, b: seq<NodeId>, s: seq<NodeId>)
    requires a + b <= s
    ensures |a| <= |s| && s[..|a|] == a && b <= s[|a|..]
  {
  }

  /** Only offered ids that were not consumed are left to try. */
  lemma RefreshedOffersOnlyEligible(t: Traversal, ids: seq<NodeId>)
    requires ValidTraversal(t)
    ensures ValidTraversal(Refreshed(t, ids))
    ensures forall x :: x in Pending(Refreshed(t, ids)) ==> x in ids && x !in Consumed(t)
  {
    RefreshedKeepsConsumed(t, ids);
    var base := Consumed(t) + Filter(Among(ids), Pending(t));
    SortIdsIsSorted(ids);
    PrefixAndFilterNoDup(t, ids);
    AppendNewMembers(base, SortIds(ids));
    FilterMembers(Among(ids), Pending(t));
    var r := Refreshed(t, ids);
    ConsumedAndPendingAreDisjoint(r);
    forall x | x in Pending(r) ensures x in ids && x !in Consumed(t) {
      assert x in r.ordered;
      assert x in base || x in SortIds(ids);
    }
  }

  // No offered id is pending, and none can still be added.
  ghost predicate NothingLeft(t: Traversal, ids: seq<NodeId>)
    requires ValidTraversal(t)
  {
    && (forall x :: x in Pending(t) ==> x !in ids)
    && (|Consumed(t)| == MAX_NODES || forall x :: x in ids ==> x in Consumed(t))
  }

  /** It is exhausted exactly when nothing offered is left to try. */
  lemma RefreshedExhaustedExactly(t: Traversal, ids: seq<NodeId>)
    requires ValidTraversal(t)
    ensures Refreshed(t, ids).exhausted <==>
              NothingLeft(t, ids)
  {
    var base := Consumed(t) + Filter(Among(ids), Pending(t));
    var added := SortIds(ids);
    PrefixAndFilterNoDup(t, ids);
    AppendNewMembers(base, added);
    NothingKept(t, ids);
    if base == Consumed(t) {
      SortIdsIsSorted(ids);
      assert (forall x :: x in added ==> x in base) <==> (forall x :: x in ids ==> x in Consumed(t));
    }
  }

  lemma NothingKept(t: Traversal, ids: seq<NodeId>)
    requires ValidTraversal(t)
    ensures var base := Consumed(t) + Filter(Among(ids), Pending(t));
            && (base == Consumed(t) <==> |base| == t.cursor)
            && (base == Consumed(t) <==> forall x :: x in Pending(t) ==> x !in ids)
  {
    var kept := Filter(Among(ids), Pending(t));
    FilterMembers(Among(ids), Pending(t));
    if kept == [] {
      assert Consumed(t) + kept == Consumed(t);
      forall x | x in Pending(t) ensures x !in ids {
        assert !Among(ids)(x);
      }
    } else {
      var x := kept[0];
      assert x in kept && Among(ids)(x);
      assert x in Pending(t) && x in ids;
      assert |Consumed(t) + kept| > |Consumed(t)|;
    }
  }

  /** Preparation keeps the stored traversal acceptable and restarts it only for
      another version, or when it is unhalted, past its set recheck time, and
      nothing offered is left to try; a halted one is never restarted. */
  lemma PreparedRestartsOnlyWhenDue(t: Traversal, version: Version, ids: seq<NodeId>, now: int)
    requires ValidTraversal(t) && NoDup(ids) && |ids| <= MAX_NODES
    ensures var (r, replaced) := Prepared(Some(t), version, ids, now);
            && ValidTraversal(r) && r.version == version
            && (replaced ==>
                  && r.ordered == ids && r.cursor == 0 && !r.halted && r.retryAt.None? && !r.standardRoutesTried)
            && (!replaced ==> Continues(t, r) && r.cursor == t.cursor && r.halted == t.halted)
            && (replaced <==>
                || t.version != version
                || (!t.halted && t.retryAt.Some? && now >= t.retryAt.value && NothingLeft(t, ids)))
  {
    RefreshedKeepsConsumed(t, ids);
    RefreshedExhaustedExactly(t, ids);
  }

  // ---- reordering the pending suffix ----

  // A Go map read with a default, as the comparators use it.
  datatype Ranks = Ranks(known: map<NodeId, int>, default: int) {
    function Of(id: NodeId): (r: int)
      ensures id in known ==> r == known[id]
      ensures id !in known ==> r == default
    {
      if id in known then known[id] else default
    }
  }

  function ByRank(rank: Ranks): ((NodeId, NodeId) -> bool) {
    (a, b) => rank.Of(a) < rank.Of(b)
  }

  lemma ByRankIsStrictWeak(rank: Ranks)
    ensures StrictWeak(ByRank(rank))
  {
  }

  function Not(p: NodeId -> bool): NodeId -> bool {
    x => !p(x)
  }

  /** Fresh proofs first, then the others by readiness tier; a halted traversal is
      left alone. */
  function FreshFirst(t: Traversal, proven: NodeId -> bool, tier: Ranks): Traversal
    requires ValidTraversal(t)
  {
    if t.halted then t
    else t.(ordered := Consumed(t) + Filter(proven, Pending(t))
                       + StableSort(ByRank(tier), Filter(Not(proven), Pending(t))))
  }

  method PrioritizeFreshProofs(t: Traversal, proven: NodeId -> bool, tier: Ranks) returns (r: Traversal)
    requires ValidTraversal(t)
    ensures r == FreshFirst(t, proven, tier)
  {
    if t.halted {
      return t;
    }
    var preferred, rest := SplitByProof(t.ordered[t.cursor..], proven);
    rest := StableSort(ByRank(tier), rest);
    r := t.(ordered := t.ordered[..t.cursor] + preferred + rest);
  }

  method SplitByProof(pending: seq<NodeId>, proven: NodeId -> bool) returns (preferred: seq<NodeId>, rest: seq<NodeId>)
    ensures preferred == Filter(proven, pending) && rest == Filter(Not(proven), pending)
  {
    preferred, rest := [], [];
    for i := 0 to |pending|
      invariant preferred == Filter(proven, pending[..i]) && rest == Filter(Not(proven), pending[..i])
    {
      FilterStep(proven, pending, i);
      FilterStep(Not(proven), pending, i);
      if proven(pending[i]) {
        preferred := preferred + [pending[i]];
      } else {
        rest := rest + [pending[i]];
      }
    }
    assert pending[..|pending|] == pending;
  }

  function SourceSorted(t: Traversal, rank: Ranks): Traversal
    requires ValidTraversal(t)
  {
    t.(ordered := Consumed(t) + StableSort(ByRank(rank), Pending(t)))
  }

  /** Stable sort of the pending suffix by preferred source, and the length of
      the leading run of ids that have a preferred source. */
  method PrioritizeSources(t: Traversal, rank: Ranks) returns (r: Traversal, count: nat)
    requires ValidTraversal(t)
    requires forall id :: id in rank.known ==> rank.known[id] <= rank.default
    ensures r == SourceSorted(t, rank)
    ensures ValidTraversal(r) && count <= |Pending(r)|
    ensures forall i :: 0 <= i < |Pending(r)| ==> (i < count <==> rank.Of(Pending(r)[i]) < rank.default)
  {
    SourceSortKeepsConsumed(t, rank);
    var pending := StableSort(ByRank(rank), t.ordered[t.cursor..]);
    r := t.(ordered := t.ordered[..t.cursor] + pending);
    assert Pending(r) == pending;
    count := LeadingRun(pending, rank);
  }

  method LeadingRun(pending: seq<NodeId>, rank: Ranks) returns (count: nat)
    requires Ordered(ByRank(rank), pending)
    requires forall id :: id in rank.known ==> rank.known[id] <= rank.default
    ensures count <= |pending|
    ensures forall i :: 0 <= i < |pending| ==> (i < count <==> rank.Of(pending[i]) < rank.default)
  {
    count := 0;
    while count < |pending| && rank.Of(pending[count]) != rank.default
      invariant count <= |pending|
      invariant forall i :: 0 <= i < count ==> rank.Of(pending[i]) < rank.default
    {
      count := count + 1;
    }
    forall i | count <= i < |pending| ensures rank.Of(pending[i]) == rank.default {
      assert i > count ==> !ByRank(rank)(pending[i], pending[count]);
    }
  }

  lemma PermutedSuffixStaysValid(t: Traversal, suffix: seq<NodeId>)
    requires ValidTraversal(t)
    requires multiset(suffix) == multiset(Pending(t))
    ensures var r := t.(ordered := Consumed(t) + suffix);
            ValidTraversal(r) && Continues(t, r) && r.cursor == t.cursor && Pending(r) == suffix
  {
    var r := t.(ordered := Consumed(t) + suffix);
    assert t.ordered == Consumed(t) + Pending(t);
    assert multiset(r.ordered) == multiset(t.ordered);
    SameMultisetSameElements(suffix, Pending(t));
    PermutationKeepsNoDup(t.ordered, r.ordered);
  }

  lemma {:induction false} SplitIsPermutation(keep: NodeId -> bool, s: seq<NodeId>)
    ensures multiset(Filter(keep, s) + Filter(Not(keep), s)) == multiset(s)
  {
    if |s| > 0 {
      SplitIsPermutation(keep, s[1..]);
      assert s == [s[0]] + s[1..];
    }
  }

  /** Neither reordering touches the consumed prefix or loses a pending id, and
      each keeps the order of the ids it does not tell apart. */
  lemma FreshFirstKeepsConsumed(t: Traversal, proven: NodeId -> bool, tier: Ranks)
    requires ValidTraversal(t)
    ensures var r := FreshFirst(t, proven, tier);
            && Continues(t, r) && r.cursor == t.cursor && r.halted == t.halted
            && multiset(Pending(r)) == multiset(Pending(t))
            && (!t.halted ==> Filter(proven, Pending(t)) <= Pending(r))
  {
    if !t.halted {
      var first := Filter(proven, Pending(t));
      var rest := StableSort(ByRank(tier), Filter(Not(proven), Pending(t)));
      SplitIsPermutation(proven, Pending(t));
      PermutedSuffixStaysValid(t, first + rest);
      assert Consumed(t) + first + rest == Consumed(t) + (first + rest);
    }
  }

  lemma SourceSortKeepsConsumed(t: Traversal, rank: Ranks)
    requires ValidTraversal(t)
    ensures var r := SourceSorted(t, rank);
            && Continues(t, r) && r.cursor == t.cursor && r.halted == t.halted
            && multiset(Pending(r)) == multiset(Pending(t))
            && Ordered(ByRank(rank), Pending(r))
  {
    PermutedSuffixStaysValid(t, StableSort(ByRank(rank), Pending(t)));
    ByRankIsStrictWeak(rank);
    SortIsOrdered(ByRank(rank), Pending(t));
  }

  /** Both reorderings of a round, the second one optional. */
  function Reordered(t: Traversal, proven: NodeId -> bool, tier: Ranks, rank: Option<Ranks>): Traversal
    requires ValidTraversal(t)
  {
    FreshFirstKeepsConsumed(t, proven, tier);
    if rank.None? then FreshFirst(t, proven, tier) else SourceSorted(FreshFirst(t, proven, tier), rank.value)
  }

  lemma ReorderedKeepsConsumed(t: Traversal, proven: NodeId -> bool, tier: Ranks, rank: Option<Ranks>)
    requires ValidTraversal(t)
    ensures var r := Reordered(t, proven, tier, rank);
            && Continues(t, r) && r.cursor == t.cursor && r.halted == t.halted
            && multiset(Pending(r)) == multiset(Pending(t))
            && (rank.Some? ==>
                  forall i, j :: 0 <= i < j < |Pending(r)| ==>
                    rank.value.Of(Pending(r)[i]) <= rank.value.Of(Pending(r)[j]))
  {
    FreshFirstKeepsConsumed(t, proven, tier);
    if rank.Some? {
      SourceSortKeepsConsumed(FreshFirst(t, proven, tier), rank.value);
      ContinuesIsTransitive(t, FreshFirst(t, proven, tier), Reordered(t, proven, tier, rank));
    }
  }

  // The order fresh proofs gave is kept inside one preferred source.
  lemma SourceSortIsStable(t: Traversal, rank: Ranks, sameRank: NodeId -> bool)
    requires ValidTraversal(t)
    requires forall a, b :: sameRank(a) && sameRank(b) ==> rank.Of(a) == rank.Of(b)
    ensures ValidTraversal(SourceSorted(t, rank))
    ensures Filter(sameRank, Pending(SourceSorted(t, rank))) == Filter(sameRank, Pending(t))
  {
    PermutedSuffixStaysValid(t, StableSort(ByRank(rank), Pending(t)));
    assert forall a, b :: sameRank(a) && sameRank(b) ==> !ByRank(rank)(a, b);
    SortIsStable(ByRank(rank), sameRank, Pending(t));
  }

  /** Consumption follows the list, so no candidate without a preferred source is
      consumed before every pending one that has one. */
  lemma PreferredAreConsumedFirst(t: Traversal, rank: Ranks, count: nat, later: Traversal, id: NodeId, other: NodeId)
    requires ValidTraversal(t) && ValidTraversal(later) && count <= |Pending(t)|
    requires forall i :: 0 <= i < |Pending(t)| ==> (i < count <==> rank.Of(Pending(t)[i]) < rank.default)
    requires later.ordered == t.ordered && t.cursor <= later.cursor
    requires id in Pending(t) && id in Consumed(later) && rank.Of(id) >= rank.default
    requires other in Pending(t) && rank.Of(other) < rank.default
    ensures other in Consumed(later)
  {
    var i :| 0 <= i < |Pending(t)| && Pending(t)[i] == id;
    var j :| 0 <= j < |Pending(t)| && Pending(t)[j] == other;
    var k :| 0 <= k < later.cursor && later.ordered[k] == id;
    NoDupByIndex(t.ordered);
    assert t.ordered[t.cursor + i] == t.ordered[k];
    assert later.ordered[t.cursor + j] == other;
  }

  // ---- a node's preferred-source rank ----

  datatype Origin = Origin(source: int, receivedAt: int, expiresAt: int)

  predicate Counts(allowed: seq<int>, origin: Origin, now: int) {
    origin.source in allowed && origin.receivedAt <= now < origin.expiresAt
  }

  // The source is nowhere before that position.
  predicate NotBefore(preferred: seq<int>, source: int, rank: int) {
    forall i :: 0 <= i < |preferred| && preferred[i] == source ==> rank <= i
  }

  /** The least position among the preferred sources of an allowed, current
      origin; the number of preferred sources when there is none. */
  method SourceRank(preferred: seq<int>, allowed: seq<int>, origins: seq<Origin>, now: int) returns (rank: nat)
    ensures rank <= |preferred|
    ensures rank < |preferred| ==> exists o :: o in origins && Counts(allowed, o, now) && o.source == preferred[rank]
    ensures forall o :: o in origins && Counts(allowed, o, now) ==> NotBefore(preferred, o.source, rank)
  {
    rank := |preferred|;
    for k := 0 to |origins|
      invariant rank <= |preferred|
      invariant rank < |preferred| ==>
          exists o :: o in origins && Counts(allowed, o, now) && o.source == preferred[rank]
      invariant forall j :: 0 <= j < k && Counts(allowed, origins[j], now) ==>
          NotBefore(preferred, origins[j].source, rank)
    {
      var origin := origins[k];
      if origin.source !in allowed || now < origin.receivedAt || now >= origin.expiresAt {
        continue;
      }
      var i := 0;
      while i < |preferred| && preferred[i] != origin.source
        invariant i <= |preferred|
        invariant forall j :: 0 <= j < i ==> preferred[j] != origin.source
      {
        i := i + 1;
      }
      if i < |preferred| && i < rank {
        rank := i;
      }
    }
  }

  // ---- a whole traversal ----

  /** Over any number of writes of one traversal, an id consumed at one position
      is never consumed at another. */
  lemma {:induction false} ConsumedOnce(run: seq<Traversal>, i: nat, j: nat)
    requires i <= j < |run|
    requires forall k :: 0 <= k < |run| - 1 ==> Continues(run[k], run[k + 1])
    requires ValidTraversal(run[i]) && ValidTraversal(run[j])
    ensures Continues(run[i], run[j])
    ensures Consumed(run[i]) <= Consumed(run[j])
    ensures forall a, b :: 0 <= a < run[i].cursor && 0 <= b < run[j].cursor && a != b ==>
              run[i].ordered[a] != run[j].ordered[b]
    decreases j - i
  {
    if i < j {
      assert Continues(run[i], run[i + 1]);
      ConsumedOnce(run, i + 1, j);
      ContinuesIsTransitive(run[i], run[i + 1], run[j]);
    }
    assert Consumed(run[i]) == run[j].ordered[..run[i].cursor];
    NoDupByIndex(run[j].ordered);
    forall a, b | 0 <= a < run[i].cursor && 0 <= b < run[j].cursor && a != b
      ensures run[i].ordered[a] != run[j].ordered[b]
    {
      assert run[i].ordered[a] == Consumed(run[i])[a] == run[j].ordered[a];
    }
  }
}

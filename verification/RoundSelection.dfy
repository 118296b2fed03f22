/** Which due service the worker checks next: ordinary slots, oldest due first,
    alternate with slots that a waiting first search may take. */
module RoundSelection {
  import opened Basics
  import opened Sorting
  import opened Traversals

  type ServiceId = int

  datatype Cooldown = Cooldown(node: NodeId, observedAt: int, until: int)

  // A service's consent, draft and runtime, as the selection reads them.
  datatype Entry = Entry(
    enabled: bool,
    removing: bool,
    draftEnabled: bool,
    appliedEnabled: bool,
    nextCheck: int,
    searching: bool,
    search: Option<Traversal>,
    cooldowns: seq<Cooldown>)

  type Document = map<ServiceId, Entry>

  predicate Due(e: Entry, now: int) {
    e.enabled && (e.removing || e.draftEnabled) && now >= e.nextCheck
  }

  predicate Cooling(cooldowns: seq<Cooldown>, id: NodeId, now: int) {
    exists c :: c in cooldowns && c.node == id && c.observedAt <= now < c.until
  }

  predicate SomeReady(pending: seq<NodeId>, cooldowns: seq<Cooldown>, now: int) {
    |pending| > 0 && (!Cooling(cooldowns, pending[0], now) || SomeReady(pending[1..], cooldowns, now))
  }

  lemma {:induction false} SomeReadyMeans(pending: seq<NodeId>, cooldowns: seq<Cooldown>, now: int)
    ensures SomeReady(pending, cooldowns, now) <==> exists id :: id in pending && !Cooling(cooldowns, id, now)
  {
    if |pending| > 0 {
      SomeReadyMeans(pending[1..], cooldowns, now);
      assert pending[0] in pending;
      assert forall id :: id in pending <==> id == pending[0] || id in pending[1..];
    }
  }

  /** A search that may go on now: unhalted, unexhausted, past its recheck time,
      with a pending candidate that is not cooling down. */
  predicate SearchDue(e: Entry, now: int) {
    && e.searching && e.search.Some?
    && var t := e.search.value;
       && !t.halted && !t.exhausted && 0 <= t.cursor < |t.ordered|
       && (t.retryAt.Some? ==> now >= t.retryAt.value)
       && SomeReady(t.ordered[t.cursor..], e.cooldowns, now)
  }

  method FirstAutonomySearchDue(e: Entry, now: int) returns (due: bool)
    ensures due == SearchDue(e, now)
  {
    if !e.searching || e.search.None? {
      return false;
    }
    var t := e.search.value;
    if t.halted || t.exhausted || t.cursor < 0 || t.cursor >= |t.ordered| ||
      (t.retryAt.Some? && now < t.retryAt.value) {
      return false;
    }
    for i := t.cursor to |t.ordered|
      invariant SomeReady(t.ordered[t.cursor..], e.cooldowns, now) == SomeReady(t.ordered[i..], e.cooldowns, now)
    {
      var cooling := false;
      for k := 0 to |e.cooldowns|
        invariant !cooling
        invariant forall j :: 0 <= j < k ==>
          !(e.cooldowns[j].node == t.ordered[i] && e.cooldowns[j].observedAt <= now < e.cooldowns[j].until)
      {
        var failure := e.cooldowns[k];
        if failure.node == t.ordered[i] && now >= failure.observedAt && now < failure.until {
          cooling := true;
          break;
        }
      }
      assert cooling == Cooling(e.cooldowns, t.ordered[i], now);
      assert t.ordered[i..][1..] == t.ordered[i + 1..];
      if !cooling {
        return true;
      }
    }
    return false;
  }

  predicate FirstSearch(e: Entry, now: int) {
    Due(e, now) && !e.removing && !e.appliedEnabled && SearchDue(e, now)
  }

  // (NextCheck, id): the order of the ordinary queue.
  predicate Ahead(doc: Document, a: ServiceId, b: ServiceId)
    requires a in doc && b in doc
  {
    doc[a].nextCheck < doc[b].nextCheck || (doc[a].nextCheck == doc[b].nextCheck && a < b)
  }

  lemma AheadIsTotal(doc: Document, a: ServiceId, b: ServiceId)
    requires a in doc && b in doc && a != b
    ensures Ahead(doc, a, b) <==> !Ahead(doc, b, a)
    ensures doc[a].nextCheck < doc[b].nextCheck ==> Ahead(doc, a, b)
  {
  }

  ghost predicate Least(doc: Document, x: ServiceId, among: set<ServiceId>) {
    && x in among && among <= doc.Keys
    && forall y :: y in among && y != x ==> Ahead(doc, x, y)
  }

  ghost function DueSet(doc: Document, now: int): set<ServiceId> {
    set x | x in doc && Due(doc[x], now)
  }

  ghost function FirstSearchSet(doc: Document, now: int): set<ServiceId> {
    set x | x in doc && FirstSearch(doc[x], now)
  }

  ghost predicate SomeDue(doc: Document, now: int) {
    exists x :: x in doc && Due(doc[x], now)
  }

  ghost predicate SomeFirstSearch(doc: Document, now: int) {
    exists x :: x in doc && FirstSearch(doc[x], now)
  }

  /** The slot is a first-search slot exactly when one may be taken and a first
      search is due; it goes to the least of them, any other slot to the least of
      all that are due. */
  ghost predicate Selected(doc: Document, now: int, ordinaryNext: bool, chosen: ServiceId, first: bool) {
    && first == (!ordinaryNext && SomeFirstSearch(doc, now))
    && Least(doc, chosen, if first then FirstSearchSet(doc, now) else DueSet(doc, now))
  }

  predicate Increasing(ids: seq<ServiceId>) {
    forall i, j :: 0 <= i < j < |ids| ==> ids[i] < ids[j]
  }

  // The ids are those of the document.
  ghost predicate Lists(ids: seq<ServiceId>, doc: Document) {
    && (forall i :: 0 <= i < |ids| ==> ids[i] in doc)
    && (forall x :: x in doc ==> exists i :: 0 <= i < |ids| && ids[i] == x)
  }

  method SelectRound(ids: seq<ServiceId>, doc: Document, open: bool, now: int, ordinaryNext: bool)
    returns (chosen: Option<ServiceId>, first: bool)
    requires Increasing(ids)
    requires Lists(ids, doc)
    ensures chosen.None? <==> !open || !SomeDue(doc, now)
    ensures chosen.Some? ==> Selected(doc, now, ordinaryNext, chosen.value, first)
  {
    if !open {
      return None, false;
    }
    var oldest: Option<ServiceId>, search: Option<ServiceId> := None, None;
    ghost var o, f := 0, 0;
    for i := 0 to |ids|
      invariant 0 <= o && 0 <= f
      invariant OldestSoFar(ids, doc, now, i, oldest, o)
      invariant if ordinaryNext then search.None? else SearchSoFar(ids, doc, now, i, search, f)
    {
      var id := ids[i];
      var e := doc[id];
      OldestStep(ids, doc, now, i, oldest, o);
      if !ordinaryNext {
        SearchStep(ids, doc, now, i, search, f);
      }
      if !e.enabled || (!e.removing && !e.draftEnabled) || now < e.nextCheck {
        continue;
      }
      if oldest.None? || e.nextCheck < doc[oldest.value].nextCheck {
        oldest, o := Some(id), i;
      }
      if !ordinaryNext && !e.removing && !e.appliedEnabled {
        var due := FirstAutonomySearchDue(e, now);
        if due && (search.None? || e.nextCheck < doc[search.value].nextCheck) {
          search, f := Some(id), i;
        }
      }
    }
    ScanSelects(ids, doc, now, ordinaryNext, oldest, o, search, f);
    if search.Some? {
      return search, true;
    }
    return oldest, false;
  }

  ghost predicate OldestSoFar(ids: seq<ServiceId>, doc: Document, now: int, n: nat, oldest: Option<ServiceId>, o: nat)
    requires n <= |ids| && Lists(ids, doc)
  {
    if oldest.None? then forall j :: 0 <= j < n ==> !Due(doc[ids[j]], now)
    else
      && o < n && oldest.value == ids[o] && Due(doc[ids[o]], now)
      && forall j :: 0 <= j < n && j != o && Due(doc[ids[j]], now) ==> Ahead(doc, ids[o], ids[j])
  }

  ghost predicate SearchSoFar(ids: seq<ServiceId>, doc: Document, now: int, n: nat, search: Option<ServiceId>, f: nat)
    requires n <= |ids| && Lists(ids, doc)
  {
    if search.None? then forall j :: 0 <= j < n ==> !FirstSearch(doc[ids[j]], now)
    else
      && f < n && search.value == ids[f] && FirstSearch(doc[ids[f]], now)
      && forall j :: 0 <= j < n && j != f && FirstSearch(doc[ids[j]], now) ==> Ahead(doc, ids[f], ids[j])
  }

  predicate Sooner(doc: Document, id: ServiceId, best: Option<ServiceId>)
    requires id in doc && (best.Some? ==> best.value in doc)
  {
    best.None? || doc[id].nextCheck < doc[best.value].nextCheck
  }

  lemma OldestStep(ids: seq<ServiceId>, doc: Document, now: int, i: nat, oldest: Option<ServiceId>, o: nat)
    requires Lists(ids, doc) && Increasing(ids) && i < |ids| && OldestSoFar(ids, doc, now, i, oldest, o)
    ensures if Due(doc[ids[i]], now) && Sooner(doc, ids[i], oldest)
        then OldestSoFar(ids, doc, now, i + 1, Some(ids[i]), i)
            else OldestSoFar(ids, doc, now, i + 1, oldest, o)
  {
  }

  lemma SearchStep(ids: seq<ServiceId>, doc: Document, now: int, i: nat, search: Option<ServiceId>, f: nat)
    requires Lists(ids, doc) && Increasing(ids) && i < |ids| && SearchSoFar(ids, doc, now, i, search, f)
    ensures if FirstSearch(doc[ids[i]], now) && Sooner(doc, ids[i], search)
        then SearchSoFar(ids, doc, now, i + 1, Some(ids[i]), i)
            else SearchSoFar(ids, doc, now, i + 1, search, f)
  {
  }

  lemma ScanSelects(ids: seq<ServiceId>, doc: Document, now: int, ordinaryNext: bool,
                    oldest: Option<ServiceId>, o: nat, search: Option<ServiceId>, f: nat)
    requires Lists(ids, doc)
    requires OldestSoFar(ids, doc, now, |ids|, oldest, o)
    requires if ordinaryNext then search.None? else SearchSoFar(ids, doc, now, |ids|, search, f)
    ensures oldest.None? <==> !SomeDue(doc, now)
    ensures search.Some? ==> oldest.Some? && Selected(doc, now, ordinaryNext, search.value, true)
    ensures search.None? && oldest.Some? ==> Selected(doc, now, ordinaryNext, oldest.value, false)
  {
    LeastByIndex(ids, doc, now);
  }

  // The sets the slots choose from, by position in the id list.
  lemma LeastByIndex(ids: seq<ServiceId>, doc: Document, now: int)
    requires Lists(ids, doc)
    ensures forall x :: x in DueSet(doc, now) ==> exists j :: 0 <= j < |ids| && ids[j] == x && Due(doc[ids[j]], now)
    ensures forall x :: x in FirstSearchSet(doc, now) ==>
              exists j :: 0 <= j < |ids| && ids[j] == x && FirstSearch(doc[ids[j]], now)
    ensures forall j :: 0 <= j < |ids| && Due(doc[ids[j]], now) ==> ids[j] in DueSet(doc, now)
    ensures forall j :: 0 <= j < |ids| && FirstSearch(doc[ids[j]], now) ==>
              ids[j] in FirstSearchSet(doc, now) && ids[j] in DueSet(doc, now)
  {
  }

  // ---- rounds ----

  datatype Queue = Queue(doc: Document, ordinaryNext: bool)

  /** What one non-empty round does to the queue: the serviced entry gets a check
      time in the future and the flag says which kind of slot it was. */
  ghost predicate Round(before: Queue, now: int, chosen: ServiceId, after: Queue) {
    && Selected(before.doc, now, before.ordinaryNext, chosen, after.ordinaryNext)
    && after.doc.Keys == before.doc.Keys
    && after.doc[chosen].nextCheck > now
    && forall x :: x in before.doc && x != chosen ==> after.doc[x] == before.doc[x]
  }

  /** The worker's selection and scheduling writes of one round. */
  class Worker {
    var queue: Queue

    constructor (doc: Document)
      ensures queue == Queue(doc, false)
    {
      queue := Queue(doc, false);
    }

    method AutonomyRound(ids: seq<ServiceId>, open: bool, now: int, checkSeconds: int, finished: int, outcome: Entry)
      returns (chosen: Option<ServiceId>)
      requires Increasing(ids)
      requires Lists(ids, queue.doc)
      requires checkSeconds > 0 && finished >= now
      modifies this
      ensures chosen.None? <==> !open || !SomeDue(old(queue.doc), now)
      ensures chosen.None? ==> queue == old(queue)
      ensures chosen.Some? ==> Round(old(queue), now, chosen.value, queue)
      ensures chosen.Some? ==>
        var next := if outcome.nextCheck > finished then outcome.nextCheck else finished + checkSeconds;
        queue.doc == old(queue.doc)[chosen.value := outcome.(nextCheck := next)]
    {
      var first;
      chosen, first := SelectRound(ids, queue.doc, open, now, queue.ordinaryNext);
      if chosen.None? {
        return;
      }
      queue := queue.(ordinaryNext := first);
      var state := outcome;  // the service's own work may set any check time
      if !(state.nextCheck > finished) {
        state := state.(nextCheck := finished + checkSeconds);
      }
      queue := queue.(doc := queue.doc[chosen.value := state]);
    }
  }

  // ---- bounded waiting ----

  /** The services that may be checked and stand before x in the ordinary queue. */
  ghost function Waiting(doc: Document, x: ServiceId): set<ServiceId>
    requires x in doc
  {
    set y | y in doc && y != x && doc[y].enabled && (doc[y].removing || doc[y].draftEnabled) && Ahead(doc, y, x)
  }

  ghost predicate IsRun(queues: seq<Queue>, times: seq<int>, chosen: seq<ServiceId>) {
    && |queues| == |times| + 1 && |chosen| == |times|
    && (forall i :: 0 <= i < |times| ==> Round(queues[i], times[i], chosen[i], queues[i + 1]))
    && (forall i, j :: 0 <= i < j < |times| ==> times[i] <= times[j])
  }

  lemma RoundNeverMovesOthersAhead(before: Queue, now: int, chosen: ServiceId, after: Queue, x: ServiceId)
    requires Round(before, now, chosen, after)
    requires x in before.doc && Due(before.doc[x], now) && x != chosen
    ensures x in after.doc && after.doc[x] == before.doc[x]
    ensures Waiting(after.doc, x) <= Waiting(before.doc, x) - {chosen}
    ensures !after.ordinaryNext ==> chosen in Waiting(before.doc, x)
  {
  }

  lemma SmallerSet(a: set<ServiceId>, b: set<ServiceId>, c: ServiceId)
    requires a <= b - {c}
    ensures |a| <= |b|
    ensures c in b ==> |a| < |b|
  {
    SubsetSize(a, b - {c});
  }

  /** Two rounds for every service ahead and two for its own turn, less the one a
      first search cannot take when the next slot is an ordinary one. */
  ghost function Bound(q: Queue, x: ServiceId): nat
    requires x in q.doc
  {
    2 * (|Waiting(q.doc, x)| + 1) - if q.ordinaryNext then 1 else 0
  }

  /** A due service with k services before it is selected within 2(k + 1) non-empty
      rounds, however many first searches wait. */
  lemma {:induction false} BoundedWaiting(queues: seq<Queue>, times: seq<int>, chosen: seq<ServiceId>, x: ServiceId)
    requires IsRun(queues, times, chosen)
    requires |times| > 0 && x in queues[0].doc && Due(queues[0].doc[x], times[0])
    requires |times| >= Bound(queues[0], x)
    ensures x in chosen[..Bound(queues[0], x)]
    decreases |times|
  {
    var bound := Bound(queues[0], x);
    if chosen[0] == x {
      assert chosen[..bound][0] == x;
    } else {
      assert Round(queues[0], times[0], chosen[0], queues[1]);
      RoundNeverMovesOthersAhead(queues[0], times[0], chosen[0], queues[1], x);
      SmallerSet(Waiting(queues[1].doc, x), Waiting(queues[0].doc, x), chosen[0]);
      var q, t, c := queues[1..], times[1..], chosen[1..];
      assert 1 + Bound(q[0], x) <= bound;
      TailIsRun(queues, times, chosen);
      assert times[0] <= times[1];
      BoundedWaiting(q, t, c, x);
      assert c[..Bound(q[0], x)] == chosen[1..1 + Bound(q[0], x)];
      var i :| 0 <= i < Bound(q[0], x) && c[i] == x;
      assert chosen[..bound][i + 1] == x;
    }
  }

  lemma TailIsRun(queues: seq<Queue>, times: seq<int>, chosen: seq<ServiceId>)
    requires IsRun(queues, times, chosen) && |times| > 0
    ensures IsRun(queues[1..], times[1..], chosen[1..])
  {
  }

  /** Two slots in a row never both go to first searches. */
  lemma FirstSearchesNeverTakeTwoSlots(a: Queue, now: int, x: ServiceId, b: Queue, later: int, y: ServiceId, c: Queue)
    requires Round(a, now, x, b) && Round(b, later, y, c)
    ensures !b.ordinaryNext || !c.ordinaryNext
    ensures b.ordinaryNext ==> Least(b.doc, y, DueSet(b.doc, later))
  {
  }
}

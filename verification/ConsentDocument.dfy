/** The autopilot's consent document: what its decoder accepts, which updates of a
    runtime entry stay acceptable, how long an entry is in JSON, and when a save the
    search makes is refused for its length. Times in nanoseconds. */
module ConsentDocument {
  import opened Basics
  import opened Sorting
  import opened Traversals

  const MAX_DOCUMENT_BYTES: nat := 262144
  const MAX_SERVICES: nat := 128
  const MAX_RESERVES: nat := 4
  const MAX_SWITCHES: nat := 20
  const MAX_FAILURES: nat := 4
  const MAX_MESSAGE_BYTES: nat := 512
  const MAX_STATE_BYTES: nat := 64
  const MAX_NAME_BYTES: nat := 128
  const MAX_CURSOR: nat := 1000000
  const SECOND: int := 1000000000
  const COOLDOWN: int := 300 * SECOND
  const HOUR: int := 3600 * SECOND

  // A text of so many bytes, and its length in JSON with the quotes and escapes.
  datatype Text = Text(bytes: nat, encoded: nat)

  // A time, and whether it is written with a zone offset instead of Z.
  datatype Stamp = NoTime | At(ns: int, offset: bool)

  datatype Code = Http403 | Http451 | OtherCode

  datatype CandidateFailure = CandidateFailure(
    node: NodeId, network: int, definition: int, scope: int, code: Code, observedAt: int, until: int,
    networkText: Text, plan: Text, offset: bool)

  // `retryOffset` is the zone of the traversal's recheck time; a nil list is null.
  datatype Runtime = Runtime(
    state: Text,
    message: Text,
    nextCheck: Stamp,
    checkedAt: Stamp,
    reserveCheckedAt: Stamp,
    failed: nat,
    failureNode: Text,
    network: Text,
    firstFailure: Stamp,
    lastFailure: Stamp,
    cursor: nat,
    search: Option<Traversal>,
    retryOffset: bool,
    reserves: seq<NodeId>,
    switches: seq<Stamp>,
    failures: seq<CandidateFailure>,
    nilOrdered: bool,
    nilReserves: bool,
    nilSwitches: bool)

  // A byte takes at most six in JSON.
  predicate ValidText(t: Text, limit: nat) {
    t.bytes <= limit && t.bytes + 2 <= t.encoded <= 6 * t.bytes + 2
  }

  predicate ValidFailure(f: CandidateFailure) {
    && !f.code.OtherCode? && f.observedAt < f.until <= f.observedAt + COOLDOWN
    && ValidText(f.networkText, MAX_NAME_BYTES) && ValidText(f.plan, MAX_NAME_BYTES)
  }

  predicate ValidRuntime(r: Runtime) {
    && ValidOption(r.search)
    && |r.reserves| <= MAX_RESERVES && |r.switches| <= MAX_SWITCHES
    && |r.failures| <= MAX_FAILURES && (forall f :: f in r.failures ==> ValidFailure(f))
    && ValidText(r.state, MAX_STATE_BYTES) && ValidText(r.message, MAX_MESSAGE_BYTES)
    && ValidText(r.network, MAX_NAME_BYTES)
    && r.failed <= 2 && r.cursor <= MAX_CURSOR
  }

  // ---- lengths in JSON ----

  function Digits(n: nat): nat {
    if n < 10 then 1 else 1 + Digits(n / 10)
  }

  // Trailing zeros of a fraction are not written.
  function Significant(fraction: nat, digits: nat): nat {
    if digits == 0 || fraction == 0 then 0
    else if fraction % 10 == 0 then Significant(fraction / 10, digits - 1)
    else digits
  }

  /** RFC 3339 with the fraction it needs, in quotes. */
  function StampBytes(ns: int, offset: bool): nat {
    var f := Significant(ns % SECOND, 9);
    21 + (if f == 0 then 0 else 1 + f) + if offset then 6 else 1
  }

  function TimeBytes(t: Stamp): nat {
    match t
    case NoTime => 22
    case At(ns, offset) => StampBytes(ns, offset)
  }

  lemma {:induction false} SignificantIsBounded(fraction: nat, digits: nat)
    ensures Significant(fraction, digits) <= digits
  {
    if digits > 0 && fraction % 10 == 0 {
      SignificantIsBounded(fraction / 10, digits - 1);
    }
  }

  lemma StampIsBounded(ns: int, offset: bool)
    ensures 22 <= StampBytes(ns, offset) <= 37
  {
    SignificantIsBounded(ns % SECOND, 9);
  }

  /** Whole seconds, a half and a nanosecond, in UTC and with an offset. */
  lemma StampLengths()
    ensures StampBytes(0, false) == 22 && StampBytes(0, true) == 27
    ensures StampBytes(500000000, false) == 24 && StampBytes(1, false) == 32 && StampBytes(1, true) == 37
  {
    assert Significant(500000000, 9) == 1;
  }

  /** A list of ids: 71 for each with its quotes, the commas and the brackets. */
  function ListBytes(n: nat, isNil: bool): nat {
    if n == 0 then (if isNil then 4 else 2) else 72 * n + 1
  }

  function OptionalBytes(key: nat, t: Text): nat {
    if t.bytes == 0 then 0 else key + t.encoded
  }

  // The keys, commas and braces that are always there, and what is fixed in length.
  const TRAVERSAL_KEYS: nat := 124
  const RUNTIME_KEYS: nat := 150
  const FAILURE_KEYS: nat := 302

  /** The traversal in its entry. */
  function TraversalBytes(t: Traversal, offset: bool, isNil: bool): nat {
    TRAVERSAL_KEYS + ListBytes(|t.ordered|, isNil)
    + Digits(if t.cursor < 0 then 0 else t.cursor)
    + (if t.exhausted then 4 else 5)
    + (if t.halted then 14 else 0)
    + (if t.retryAt.None? then 22 else StampBytes(t.retryAt.value, offset))
    + (if t.standardRoutesTried then 29 else 0)
  }

  function SwitchBytes(switches: seq<Stamp>): nat {
    if |switches| == 0 then 0 else 1 + TimeBytes(switches[0]) + SwitchBytes(switches[1..])
  }

  function FailureBytes(f: CandidateFailure): nat {
    FAILURE_KEYS + f.networkText.encoded + f.plan.encoded
    + StampBytes(f.observedAt, f.offset) + StampBytes(f.until, f.offset)
  }

  function FailuresBytes(failures: seq<CandidateFailure>): nat {
    if |failures| == 0 then 0 else 1 + FailureBytes(failures[0]) + FailuresBytes(failures[1..])
  }

  // What the search never rewrites.
  function KeptBytes(r: Runtime): nat {
    RUNTIME_KEYS + TimeBytes(r.reserveCheckedAt) + Digits(r.cursor)
    + OptionalBytes(16, r.failureNode) + OptionalBytes(11, r.network)
  }

  function TimesBytes(r: Runtime): nat {
    TimeBytes(r.nextCheck) + TimeBytes(r.checkedAt) + TimeBytes(r.firstFailure) + TimeBytes(r.lastFailure)
  }

  function ListsBytes(r: Runtime): nat {
    ListBytes(|r.reserves|, r.nilReserves)
    + (if |r.switches| == 0 then (if r.nilSwitches then 4 else 2) else 1 + SwitchBytes(r.switches))
    + (if |r.failures| == 0 then 0 else 23 + FailuresBytes(r.failures))
  }

  // What it may rewrite besides the traversal.
  function WrittenBytes(r: Runtime): nat {
    r.state.encoded + r.message.encoded + TimesBytes(r) + Digits(r.failed) + ListsBytes(r)
  }

  function SearchBytes(r: Runtime): nat {
    if r.search.None? then 0 else 10 + TraversalBytes(r.search.value, r.retryOffset, r.nilOrdered)
  }

  function RuntimeBytes(r: Runtime): nat {
    KeptBytes(r) + WrittenBytes(r) + SearchBytes(r)
  }

  datatype Entry = Entry(id: int, runtime: Runtime)

  // `otherBytes` is the length of everything but the entries' own objects.
  datatype Document = Document(services: set<int>, runtime: seq<Entry>, otherBytes: nat)

  function AllBytes(entries: seq<Entry>): nat {
    if |entries| == 0 then 0 else RuntimeBytes(entries[0].runtime) + AllBytes(entries[1..])
  }

  function EncodedBytes(d: Document): nat {
    d.otherBytes + AllBytes(d.runtime)
  }

  /** Everything the decoder checks but the length. */
  predicate WellFormed(d: Document) {
    && |d.services| <= MAX_SERVICES && |d.runtime| <= MAX_SERVICES
    && (forall i, j :: 0 <= i < j < |d.runtime| ==> d.runtime[i].id != d.runtime[j].id)
    && (forall i :: 0 <= i < |d.runtime| ==> d.runtime[i].id in d.services && ValidRuntime(d.runtime[i].runtime))
  }

  predicate Accepted(d: Document) {
    WellFormed(d) && EncodedBytes(d) <= MAX_DOCUMENT_BYTES
  }

  // ---- updates of one entry ----

  function Within(now: int): Stamp -> bool {
    (at: Stamp) => at.At? && at.ns > now - HOUR
  }

  /** One switch is spent if fewer than the limit were spent in the last hour. */
  function ReserveSwitch(switches: seq<Stamp>, now: int, offset: bool, limit: int): (seq<Stamp>, bool) {
    var recent := Filter(Within(now), switches);
    if limit < 1 || |recent| >= limit then (recent, false) else (recent + [At(now, offset)], true)
  }

  function OtherNode(id: NodeId): CandidateFailure -> bool {
    (f: CandidateFailure) => f.node != id
  }

  function Current(network: int, definition: int, scope: int, now: int): CandidateFailure -> bool {
    (f: CandidateFailure) =>
      && f.network == network && f.definition == definition && f.scope == scope
      && f.observedAt <= now < f.until <= f.observedAt + COOLDOWN
      && !f.code.OtherCode?
  }

  function PruneFailures(failures: seq<CandidateFailure>, network: int, definition: int, scope: int, now: int)
    : seq<CandidateFailure>
  {
    var kept := Filter(Current(network, definition, scope, now), failures);
    if |kept| > MAX_FAILURES then kept[|kept| - MAX_FAILURES..] else kept
  }

  function RecordFailure(failures: seq<CandidateFailure>, f: CandidateFailure): seq<CandidateFailure> {
    var others := Filter(OtherNode(f.node), failures);
    PruneFailures(others + [f.(until := f.observedAt + COOLDOWN)], f.network, f.definition, f.scope, f.observedAt)
  }

  function OtherId(id: NodeId): NodeId -> bool {
    x => x != id
  }

  /** The reserves an application leaves: without the current node, with the
      candidate if there is room. */
  function ReservesForApply(reserves: seq<NodeId>, current: NodeId, candidate: NodeId, target: int): seq<NodeId> {
    var kept := Filter(OtherId(current), reserves);
    if candidate !in kept && |kept| < target then kept + [candidate] else kept
  }

  lemma FailuresStayValid(failures: seq<CandidateFailure>, f: CandidateFailure)
    requires forall g :: g in failures ==> ValidFailure(g)
    requires ValidText(f.networkText, MAX_NAME_BYTES) && ValidText(f.plan, MAX_NAME_BYTES)
    ensures |RecordFailure(failures, f)| <= MAX_FAILURES
    ensures forall g :: g in RecordFailure(failures, f) ==> ValidFailure(g)
  {
    var others := Filter(OtherNode(f.node), failures) + [f.(until := f.observedAt + COOLDOWN)];
    var live := Current(f.network, f.definition, f.scope, f.observedAt);
    FilterMembers(OtherNode(f.node), failures);
    FilterMembers(live, others);
    forall g | g in RecordFailure(failures, f) ensures ValidFailure(g) {
      assert g in Filter(live, others);
      assert live(g);
    }
  }

  /** Every update the search makes to an entry keeps it acceptable. */
  lemma UpdatesKeepRuntimeValid(r: Runtime, t: Traversal, current: NodeId, candidate: NodeId, target: int,
                                now: int, offset: bool, limit: int, f: CandidateFailure)
    requires ValidRuntime(r) && ValidTraversal(t)
    requires target <= MAX_RESERVES && limit <= MAX_SWITCHES
    requires ValidText(f.networkText, MAX_NAME_BYTES) && ValidText(f.plan, MAX_NAME_BYTES)
    ensures ValidRuntime(r.(search := Some(t)))
    ensures ValidRuntime(r.(reserves := ReservesForApply(r.reserves, current, candidate, target)))
    ensures ValidRuntime(r.(switches := ReserveSwitch(r.switches, now, offset, limit).0))
    ensures ValidRuntime(r.(failures := RecordFailure(r.failures, f)))
  {
    FailuresStayValid(r.failures, f);
  }

  /** A recorded refusal of a node replaces the older one of the same node. */
  lemma OneFailurePerNode(failures: seq<CandidateFailure>, f: CandidateFailure)
    ensures forall g :: g in RecordFailure(failures, f) && g.node == f.node ==>
        g == f.(until := f.observedAt + COOLDOWN)
  {
    var others := Filter(OtherNode(f.node), failures);
    FilterMembers(OtherNode(f.node), failures);
    var live := Current(f.network, f.definition, f.scope, f.observedAt);
    FilterMembers(live, others + [f.(until := f.observedAt + COOLDOWN)]);
    forall g | g in RecordFailure(failures, f) && g.node == f.node
      ensures g == f.(until := f.observedAt + COOLDOWN)
    {
      assert g in Filter(live, others + [f.(until := f.observedAt + COOLDOWN)]);
      assert !OtherNode(f.node)(g);
    }
  }

  /** A switch is granted exactly if fewer than the limit were spent in the last hour; those
      are kept, and it is the last of them. */
  lemma SwitchesAreFew(switches: seq<Stamp>, now: int, offset: bool, limit: int)
    ensures var (kept, granted) := ReserveSwitch(switches, now, offset, limit);
            && (forall k :: 0 <= k < |kept| ==>
                  kept[k] == At(now, offset) || (kept[k] in switches && kept[k].At? && now - kept[k].ns < HOUR))
            && (forall k :: 0 <= k < |switches| && switches[k].At? && now - switches[k].ns < HOUR ==>
                  switches[k] in kept)
            && (granted ==> 1 <= |kept| <= limit && kept[|kept| - 1] == At(now, offset))
            && (!granted ==> (limit < 1 || |kept| >= limit) && forall k :: 0 <= k < |kept| ==> kept[k] in switches)
  {
    FilterMembers(Within(now), switches);
  }

  /** What is kept of the refusals: the new one last, if it is definite, and of the others only
      those of other nodes that are still in force for the same network, definition and scope. */
  lemma RefusalsKept(failures: seq<CandidateFailure>, f: CandidateFailure)
    ensures var kept := RecordFailure(failures, f);
            && |kept| <= 4
            && (!f.code.OtherCode? ==> |kept| > 0 && kept[|kept| - 1] == f.(until := f.observedAt + 300 * SECOND))
            && (forall g :: g in kept && g.node != f.node ==> g in failures && InForce(g, f))
            && (|failures| < 4 ==> forall g :: g in failures && g.node != f.node && InForce(g, f) ==> g in kept)
  {
    var added := f.(until := f.observedAt + COOLDOWN);
    var live, others := Current(f.network, f.definition, f.scope, f.observedAt), Filter(OtherNode(f.node), failures);
    FilterMembers(OtherNode(f.node), failures);
    FilterMembers(live, others + [added]);
    FilterOfConcat(live, others, [added]);
    FilterIsShorter(OtherNode(f.node), failures);
    FilterIsShorter(live, others);
    assert Filter(live, [added]) == if live(added) then [added] else [];
    forall g | g in RecordFailure(failures, f) && g.node != f.node ensures g in failures && InForce(g, f) {
      assert g in Filter(live, others + [added]);
      assert live(g) && g in others;
    }
  }

  predicate InForce(g: CandidateFailure, f: CandidateFailure) {
    && g.network == f.network && g.definition == f.definition && g.scope == f.scope
    && (g.code.Http403? || g.code.Http451?)
    && g.observedAt <= f.observedAt < g.until && g.until - g.observedAt <= 300 * SECOND
  }

  lemma {:induction false} FilterIsShorter<T>(keep: T -> bool, s: seq<T>)
    ensures |Filter(keep, s)| <= |s|
  {
    if |s| > 0 {
      FilterIsShorter(keep, s[1..]);
    }
  }

  /** The reserves of an application: all but the current node, and the candidate exactly if
      it was one already or there is room. */
  lemma ReservesKept(reserves: seq<NodeId>, current: NodeId, candidate: NodeId, target: int)
    requires current != candidate
    ensures var kept := ReservesForApply(reserves, current, candidate, target);
            && (forall k :: 0 <= k < |kept| ==> kept[k] != current && (kept[k] == candidate || kept[k] in reserves))
            && (forall k :: 0 <= k < |reserves| && reserves[k] != current ==> reserves[k] in kept)
            && (candidate !in kept ==> |kept| >= target)
            && (candidate in reserves || |kept| <= target || candidate !in kept)
  {
    FilterMembers(OtherId(current), reserves);
    var others, kept := Filter(OtherId(current), reserves), ReservesForApply(reserves, current, candidate, target);
    forall k | 0 <= k < |kept| ensures kept[k] != current && (kept[k] == candidate || kept[k] in reserves) {
      assert k < |others| ==> kept[k] == others[k] && others[k] in others && OtherId(current)(others[k]);
    }
  }

  /** An entry is accepted exactly within these bounds. */
  lemma EntryAcceptedExactly(r: Runtime)
    ensures ValidRuntime(r) <==>
            && ValidOption(r.search) && |r.reserves| <= 4 && |r.switches| <= 20 && |r.failures| <= 4
            && r.failed <= 2 && r.cursor <= 1000000
            && r.state.bytes <= 64 && r.message.bytes <= 512 && r.network.bytes <= 128
            && Quoted(r.state) && Quoted(r.message) && Quoted(r.network)
            && forall f :: f in r.failures ==>
                 && (f.code.Http403? || f.code.Http451?) && 0 < f.until - f.observedAt <= 300 * SECOND
                 && f.networkText.bytes <= 128 && f.plan.bytes <= 128 && Quoted(f.networkText) && Quoted(f.plan)
  {
  }

  predicate Quoted(t: Text) {
    2 <= t.encoded - t.bytes <= 2 + 5 * t.bytes
  }

  // ---- the document a write saves ----

  function WithRuntime(d: Document, i: nat, r: Runtime): Document
    requires i < |d.runtime|
  {
    d.(runtime := d.runtime[i := d.runtime[i].(runtime := r)])
  }

  function WithSearch(d: Document, i: nat, t: Traversal): Document
    requires i < |d.runtime|
  {
    WithRuntime(d, i, d.runtime[i].runtime.(search := Some(t)))
  }

  lemma {:induction false} AllBytesUpdate(entries: seq<Entry>, i: nat, e: Entry)
    requires i < |entries|
    ensures AllBytes(entries[i := e]) == AllBytes(entries) - RuntimeBytes(entries[i].runtime) + RuntimeBytes(e.runtime)
  {
    if i == 0 {
      assert entries[i := e][1..] == entries[1..];
    } else {
      assert entries[i := e][1..] == entries[1..][i - 1 := e];
      AllBytesUpdate(entries[1..], i - 1, e);
    }
  }

  lemma WriteKeepsWellFormed(d: Document, i: nat, r: Runtime)
    requires WellFormed(d) && i < |d.runtime| && ValidRuntime(r)
    ensures WellFormed(WithRuntime(d, i, r))
  {
    var after := WithRuntime(d, i, r);
    assert forall k :: 0 <= k < |d.runtime| ==> after.runtime[k].id == d.runtime[k].id;
    forall k | 0 <= k < |d.runtime| ensures ValidRuntime(after.runtime[k].runtime) {
      assert k != i ==> after.runtime[k] == d.runtime[k];
    }
  }

  /** Writing a valid entry into an accepted document is accepted again exactly when the
      document has room for the entry's own growth. */
  lemma RuntimeWriteAcceptedExactly(d: Document, i: nat, r: Runtime)
    requires Accepted(d) && i < |d.runtime| && ValidRuntime(r)
    ensures Accepted(WithRuntime(d, i, r)) <==>
              EncodedBytes(d) + RuntimeBytes(r) - RuntimeBytes(d.runtime[i].runtime) <= MAX_DOCUMENT_BYTES
  {
    AllBytesUpdate(d.runtime, i, d.runtime[i].(runtime := r));
    WriteKeepsWellFormed(d, i, r);
  }

  /** For a traversal alone: what grows is its list, the digits of its cursor, its flags
      and its recheck time. */
  lemma TraversalWriteAcceptedExactly(d: Document, i: nat, t: Traversal)
    requires Accepted(d) && i < |d.runtime| && ValidTraversal(t) && d.runtime[i].runtime.search.Some?
    ensures var r := d.runtime[i].runtime;
            Accepted(WithSearch(d, i, t)) <==>
              EncodedBytes(d) + TraversalBytes(t, r.retryOffset, r.nilOrdered)
                - TraversalBytes(r.search.value, r.retryOffset, r.nilOrdered)
                <= MAX_DOCUMENT_BYTES
  {
    RuntimeWriteAcceptedExactly(d, i, d.runtime[i].runtime.(search := Some(t)));
  }

  // ---- how much room the search needs ----

  lemma DigitsOfCursor(n: nat)
    requires n <= MAX_NODES
    ensures 1 <= Digits(n) <= 3
  {
    assert Digits(n / 10) <= 2;
  }

  // Besides the keys and the list: one digit, `true` and no time; or three digits,
  // `false`, and everything.
  const LEAST_SCALARS: nat := 1 + 4 + 22
  const MOST_SCALARS: nat := 3 + 5 + 14 + 37 + 29

  lemma TraversalBytesRange(t: Traversal, offset: bool, isNil: bool)
    requires ValidTraversal(t)
    ensures TRAVERSAL_KEYS + ListBytes(|t.ordered|, isNil) + LEAST_SCALARS <= TraversalBytes(t, offset, isNil)
              <= TRAVERSAL_KEYS + ListBytes(|t.ordered|, isNil) + MOST_SCALARS
  {
    DigitsOfCursor(t.cursor);
    if t.retryAt.Some? {
      StampIsBounded(t.retryAt.value, offset);
    }
  }

  lemma {:induction false} SwitchBytesRange(switches: seq<Stamp>)
    ensures 23 * |switches| <= SwitchBytes(switches) <= 38 * |switches|
  {
    if |switches| > 0 {
      if switches[0].At? {
        StampIsBounded(switches[0].ns, switches[0].offset);
      }
      SwitchBytesRange(switches[1..]);
    }
  }

  const MOST_NAME: nat := 6 * MAX_NAME_BYTES + 2
  const MOST_FAILURE: nat := 1 + FAILURE_KEYS + 2 * MOST_NAME + 2 * 37

  lemma FailureBytesRange(f: CandidateFailure)
    requires ValidFailure(f)
    ensures 1 + FailureBytes(f) <= MOST_FAILURE
  {
    StampIsBounded(f.observedAt, f.offset);
    StampIsBounded(f.until, f.offset);
  }

  lemma {:induction false} FailuresBytesRange(failures: seq<CandidateFailure>)
    requires forall f :: f in failures ==> ValidFailure(f)
    ensures FAILURE_KEYS * |failures| <= FailuresBytes(failures) <= MOST_FAILURE * |failures|
  {
    if |failures| > 0 {
      FailureBytesRange(failures[0]);
      FailuresBytesRange(failures[1..]);
    }
  }

  lemma TimeIsBounded(t: Stamp)
    ensures 22 <= TimeBytes(t) <= 37
  {
    if t.At? {
      StampIsBounded(t.ns, t.offset);
    }
  }

  const MOST_LISTS: nat := (72 * MAX_RESERVES + 1) + (1 + 38 * MAX_SWITCHES) + (23 + MOST_FAILURE * MAX_FAILURES)
  const MOST_WRITTEN: nat := (6 * MAX_STATE_BYTES + 2) + (6 * MAX_MESSAGE_BYTES + 2) + 4 * 37 + 1 + MOST_LISTS

  lemma ListsBytesRange(r: Runtime)
    requires ValidRuntime(r)
    ensures ListsBytes(r) <= MOST_LISTS
  {
    SwitchBytesRange(r.switches);
    FailuresBytesRange(r.failures);
    assert MOST_FAILURE * |r.failures| <= MOST_FAILURE * MAX_FAILURES;
  }

  lemma TimesBytesRange(r: Runtime)
    ensures TimesBytes(r) <= 4 * 37
  {
    TimeIsBounded(r.nextCheck);
    TimeIsBounded(r.checkedAt);
    TimeIsBounded(r.firstFailure);
    TimeIsBounded(r.lastFailure);
  }

  lemma WrittenBytesRange(r: Runtime)
    requires ValidRuntime(r)
    ensures WrittenBytes(r) <= MOST_WRITTEN
  {
    TimesBytesRange(r);
    ListsBytesRange(r);
  }

  /** What the entry of a service may come to while its list has at most n ids. */
  function Most(r: Runtime, n: nat): nat {
    KeptBytes(r) + MOST_WRITTEN + 10 + TRAVERSAL_KEYS + ListBytes(n, true) + MOST_SCALARS
  }

  /** The document has room for that. */
  predicate Roomy(d: Document, i: nat, n: nat)
    requires i < |d.runtime|
  {
    EncodedBytes(d) - RuntimeBytes(d.runtime[i].runtime) + Most(d.runtime[i].runtime, n) <= MAX_DOCUMENT_BYTES
  }

  /** A save of the search: whatever it writes of the entry, with a list of at most n. */
  predicate SearchWrites(r: Runtime, after: Runtime, n: nat) {
    && after.reserveCheckedAt == r.reserveCheckedAt && after.failureNode == r.failureNode
    && after.network == r.network && after.cursor == r.cursor
    && (after.search.Some? ==> |after.search.value.ordered| <= n)
  }

  lemma RuntimeIsAtMost(r: Runtime, n: nat)
    requires ValidRuntime(r) && (r.search.Some? ==> |r.search.value.ordered| <= n)
    ensures RuntimeBytes(r) <= Most(r, n)
  {
    WrittenBytesRange(r);
    if r.search.Some? {
      TraversalBytesRange(r.search.value, r.retryOffset, r.nilOrdered);
    }
  }

  /** In a document with room for lists of n ids no save of the search with such a list is
      refused: neither a preparation nor a cursor write, a halt, a recheck time, a
      reordering or a message; and the document keeps that room. With room for the 512 ids
      a list may have, no save of the search is refused at all. */
  lemma RoomySavesAreAccepted(d: Document, i: nat, after: Runtime, n: nat)
    requires Accepted(d) && i < |d.runtime| && Roomy(d, i, n)
    requires ValidRuntime(after) && SearchWrites(d.runtime[i].runtime, after, n)
    ensures Accepted(WithRuntime(d, i, after)) && Roomy(WithRuntime(d, i, after), i, n)
  {
    var r := d.runtime[i].runtime;
    RuntimeIsAtMost(after, n);
    assert Most(after, n) == Most(r, n);
    RuntimeWriteAcceptedExactly(d, i, after);
    AllBytesUpdate(d.runtime, i, d.runtime[i].(runtime := after));
  }

  // Saves of the search, one after another.
  function Saves(d: Document, i: nat, writes: seq<Runtime>): Document
    requires i < |d.runtime|
    ensures |Saves(d, i, writes).runtime| == |d.runtime|
  {
    if |writes| == 0 then d else WithRuntime(Saves(d, i, writes[..|writes| - 1]), i, writes[|writes| - 1])
  }

  // The entry after these saves.
  function Latest(r: Runtime, writes: seq<Runtime>): Runtime {
    if |writes| == 0 then r else writes[|writes| - 1]
  }

  ghost predicate AreSearchWrites(r: Runtime, writes: seq<Runtime>, n: nat) {
    |writes| > 0 ==>
      var m := |writes| - 1;
      && AreSearchWrites(r, writes[..m], n)
      && ValidRuntime(writes[m]) && SearchWrites(Latest(r, writes[..m]), writes[m], n)
  }

  /** So any number of rounds, over any number of traversals, is searched without a
      refused save. */
  lemma {:induction false} RoomyTraversalIsNeverRefused(d: Document, i: nat, writes: seq<Runtime>, n: nat)
    requires Accepted(d) && i < |d.runtime| && Roomy(d, i, n) && AreSearchWrites(d.runtime[i].runtime, writes, n)
    ensures var after := Saves(d, i, writes);
            Accepted(after) && Roomy(after, i, n) && after.runtime[i].runtime == Latest(d.runtime[i].runtime, writes)
  {
    if |writes| > 0 {
      var m := |writes| - 1;
      RoomyTraversalIsNeverRefused(d, i, writes[..m], n);
      RoomySavesAreAccepted(Saves(d, i, writes[..m]), i, writes[m], n);
    }
  }

  // What the list takes now.
  function CurrentList(r: Runtime): nat {
    if r.search.None? then 0 else ListBytes(|r.search.value.ordered|, r.nilOrdered)
  }

  /** The slack that makes a document roomy, besides what the list may still grow. */
  const SLACK: nat := MOST_WRITTEN + 10 + TRAVERSAL_KEYS + MOST_SCALARS

  lemma SlackIsRoom(d: Document, i: nat, n: nat)
    requires i < |d.runtime|
    requires EncodedBytes(d) + SLACK + ListBytes(n, true) - CurrentList(d.runtime[i].runtime) <= MAX_DOCUMENT_BYTES
    ensures Roomy(d, i, n)
  {
  }

  /** For a traversal alone sixty-one bytes are enough. */
  lemma TraversalSlack(d: Document, i: nat, t: Traversal)
    requires Accepted(d) && i < |d.runtime| && ValidTraversal(t) && d.runtime[i].runtime.search.Some?
    requires 0 < |t.ordered| <= |d.runtime[i].runtime.search.value.ordered|
    requires EncodedBytes(d) + (MOST_SCALARS - LEAST_SCALARS) <= MAX_DOCUMENT_BYTES
    ensures Accepted(WithSearch(d, i, t))
  {
    var r := d.runtime[i].runtime;
    TraversalBytesRange(t, r.retryOffset, r.nilOrdered);
    TraversalBytesRange(r.search.value, r.retryOffset, r.nilOrdered);
    TraversalWriteAcceptedExactly(d, i, t);
  }

  // ---- documents without room ----

  function FirstIds(n: nat): (r: seq<NodeId>)
    ensures |r| == n && forall i :: 0 <= i < n ==> r[i] == i
  {
    seq(n, i => i)
  }

  function IdsBelow(n: nat): (r: set<int>)
    ensures |r| == n && forall i :: i in r <==> 0 <= i < n
  {
    if n == 0 then {} else IdsBelow(n - 1) + {n - 1}
  }

  function PlainRuntime(t: Traversal): Runtime {
    Runtime(Text(0, 2), Text(0, 2), NoTime, NoTime, NoTime, 0, Text(0, 2), Text(0, 2), NoTime, NoTime, 0,
            Some(t), false, [], [], [], false, false, false)
  }

  // Services whose fresh traversals hold n ids.
  function PlainEntries(first: int, count: nat, n: nat): (r: seq<Entry>)
    ensures |r| == count
    ensures forall i :: 0 <= i < count ==> r[i] == Entry(first + i, PlainRuntime(NewTraversal(0, FirstIds(n))))
  {
    seq(count, i => Entry(first + i, PlainRuntime(NewTraversal(0, FirstIds(n)))))
  }

  lemma {:induction false} PlainBytes(first: int, count: nat, n: nat)
    requires n > 0
    ensures AllBytes(PlainEntries(first, count, n)) == count * (433 + 72 * n)
    decreases count
  {
    if count > 0 {
      var entries := PlainEntries(first, count, n);
      assert entries[1..] == PlainEntries(first + 1, count - 1, n);
      PlainBytes(first + 1, count - 1, n);
      assert RuntimeBytes(entries[0].runtime) == 433 + 72 * n;
    }
  }

  lemma {:induction false} AllBytesConcat(a: seq<Entry>, b: seq<Entry>)
    ensures AllBytes(a + b) == AllBytes(a) + AllBytes(b)
  {
    if |a| == 0 {
      assert a + b == b;
    } else {
      assert (a + b)[1..] == a[1..] + b;
      AllBytesConcat(a[1..], b);
    }
  }

  lemma PlainEntriesAreValid(first: int, count: nat, n: nat)
    requires n <= MAX_NODES
    ensures forall e :: e in PlainEntries(first, count, n) ==> ValidRuntime(e.runtime)
  {
    NoDupByIndex(FirstIds(n));
  }

  // Six full services, one of 430 candidates, and the one in question.
  function FilledEntries(t: Traversal): seq<Entry> {
    [Entry(0, PlainRuntime(t))] + (PlainEntries(1, 6, MAX_NODES) + PlainEntries(7, 1, 430))
  }

  // What policy, consent and keys take up then.
  const REST: nat := MAX_DOCUMENT_BYTES - (6 * (433 + 72 * MAX_NODES) + 433 + 72 * 430)

  /** A document of eight services that fills its bound to the last byte. */
  function FilledDocument(t: Traversal): Document {
    var bytes := RuntimeBytes(PlainRuntime(t));
    Document(IdsBelow(8), FilledEntries(t), if bytes <= REST then REST - bytes else 0)
  }

  lemma FilledToTheLastByte(t: Traversal)
    requires ValidTraversal(t) && RuntimeBytes(PlainRuntime(t)) <= REST
    ensures Accepted(FilledDocument(t)) && EncodedBytes(FilledDocument(t)) == MAX_DOCUMENT_BYTES
  {
    FilledBytes(t);
    FilledEntriesAreValid(t);
  }

  lemma FilledBytes(t: Traversal)
    ensures AllBytes(FilledEntries(t)) == RuntimeBytes(PlainRuntime(t)) + MAX_DOCUMENT_BYTES - REST
  {
    var full, part := PlainEntries(1, 6, MAX_NODES), PlainEntries(7, 1, 430);
    PlainBytes(1, 6, MAX_NODES);
    PlainBytes(7, 1, 430);
    AllBytesConcat(full, part);
    assert FilledEntries(t)[1..] == full + part;
  }

  lemma FilledEntriesAreValid(t: Traversal)
    requires ValidTraversal(t)
    ensures |FilledEntries(t)| == 8
    ensures forall i :: 0 <= i < 8 ==> FilledEntries(t)[i].id == i && ValidRuntime(FilledEntries(t)[i].runtime)
  {
    var full, part := PlainEntries(1, 6, MAX_NODES), PlainEntries(7, 1, 430);
    var entries := FilledEntries(t);
    PlainEntriesAreValid(1, 6, MAX_NODES);
    PlainEntriesAreValid(7, 1, 430);
    forall i | 0 <= i < |entries| ensures entries[i].id == i && ValidRuntime(entries[i].runtime) {
      if 0 < i < 7 {
        assert entries[i] == full[i - 1] && full[i - 1] in full;
      } else if i == 7 {
        assert entries[i] == part[0] && part[0] in part;
      }
    }
  }

  /** At the bound a cursor write is refused when the cursor gains a digit, and so is the
      halt before an application: the save fails and the autopilot is blocked. */
  lemma WritesAtTheBoundAreRefused(t: Traversal)
    requires ValidTraversal(t) && |t.ordered| == 20 && t.cursor == 9 && !t.halted && t.retryAt.None?
    ensures Accepted(FilledDocument(t)) && EncodedBytes(FilledDocument(t)) == MAX_DOCUMENT_BYTES
    ensures FilledDocument(t).otherBytes < 6000
    ensures !Accepted(WithSearch(FilledDocument(t), 0, t.(cursor := 10)))
    ensures !Accepted(WithSearch(FilledDocument(t), 0, t.(halted := true)))
  {
    TraversalBytesRange(t, false, false);
    FilledToTheLastByte(t);
    assert Digits(9) == 1 && Digits(10) == 2;
    TraversalWriteAcceptedExactly(FilledDocument(t), 0, t.(cursor := 10));
    TraversalWriteAcceptedExactly(FilledDocument(t), 0, t.(halted := true));
  }

  // A service whose traversal holds as many ids as the catalogue may offer.
  function FullDocument(n: nat): Document {
    Document(IdsBelow(n), PlainEntries(0, n, MAX_NODES), 0)
  }

  ghost predicate Full(e: Entry) {
    e.runtime.search.Some? && |e.runtime.search.value.ordered| == MAX_NODES
  }

  lemma {:induction false} FullBytes(entries: seq<Entry>, n: nat)
    requires n <= |entries| && forall i :: 0 <= i < n ==> Full(entries[i])
    ensures AllBytes(entries) >= 36865 * n
  {
    if n > 0 {
      assert RuntimeBytes(entries[0].runtime) >= ListBytes(MAX_NODES, entries[0].runtime.nilOrdered) == 36865;
      FullBytes(entries[1..], n - 1);
    }
  }

  /** The size bound is not closed under preparation either: eight services whose fresh
      traversals hold every id the catalogue may offer make a document that passes
      every other check and is refused, whatever else it holds. */
  lemma EightFullTraversalsAreRefused(d: Document)
    requires |d.runtime| >= 8 && forall i :: 0 <= i < 8 ==> Full(d.runtime[i])
    ensures !Accepted(d)
  {
    FullBytes(d.runtime, 8);
  }

  lemma FullDocumentIsWellFormed(n: nat)
    requires n <= MAX_SERVICES
    ensures WellFormed(FullDocument(n)) && forall i :: 0 <= i < n ==> Full(FullDocument(n).runtime[i])
  {
    PlainEntriesAreValid(0, n, MAX_NODES);
    forall i | 0 <= i < n ensures ValidRuntime(FullDocument(n).runtime[i].runtime) {
      assert FullDocument(n).runtime[i] in FullDocument(n).runtime;
    }
  }

  // ---- after a start ----

  const PENDING := Text(7, 9)
  const FRESH_CHECK := Text(67, 69)

  // Old observations are not reused: times, failures and texts start over.
  function Restarted(r: Runtime): Runtime {
    r.(nextCheck := NoTime, failed := 0, firstFailure := NoTime, lastFailure := NoTime, state := PENDING,
      message := FRESH_CHECK)
  }

  /** What a process works with after it has loaded the document. */
  function AfterStart(d: Document): (r: Document)
    ensures |r.runtime| == |d.runtime|
  {
    var all := d.runtime;
    d.(runtime := seq(|all|, i requires 0 <= i < |all| => all[i].(runtime := Restarted(all[i].runtime))))
  }

  /** A start keeps every traversal, reserve, switch and failure record, forgets when to check
      and what has failed, and keeps the document well-formed; only its next save may find it too long. */
  lemma StartKeepsTheSearch(d: Document)
    requires WellFormed(d)
    ensures WellFormed(AfterStart(d))
    ensures forall i :: 0 <= i < |d.runtime| ==>
              var r, after := d.runtime[i].runtime, AfterStart(d).runtime[i].runtime;
              && after.search == r.search && after.reserves == r.reserves
              && after.switches == r.switches && after.failures == r.failures
              && after.nextCheck == NoTime && after.failed == 0
              && after.firstFailure == NoTime && after.lastFailure == NoTime
              && after.state == PENDING && after.message == FRESH_CHECK
  {
    forall i | 0 <= i < |d.runtime| ensures ValidRuntime(AfterStart(d).runtime[i].runtime) {
      assert ValidRuntime(d.runtime[i].runtime);
    }
  }
}

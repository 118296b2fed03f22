/** Everything the first-usable search of one service does that outlives a line
    of code, as one history: document saves, checks, applications and restarts.
    `Safe` says what may follow what; the lemmas say what that means for a run
    that may be cut by a crash after any event. */
module SearchHistory {
  import opened Basics
  import opened Histories
  import opened Sorting
  import opened Traversals
  import opened RollbackReceipts

  const REFUSAL_LIMIT: nat := 3

  // What a check of a candidate finds.
  datatype Found = FoundUnsupported | FoundError | FoundUnclear | FoundPass | FoundRefusal | FoundFailure

  // What a cursor write consumes of it: a refusal by the service, another definite
  // outcome, or no observation.
  datatype Observation = Skipped | ServiceRefusal | OtherOutcome

  function ObservationOf(f: Found): Observation {
    match f
    case FoundPass => OtherOutcome
    case FoundFailure => OtherOutcome
    case FoundRefusal => ServiceRefusal
    case _ => Skipped
  }

  datatype Event =
    | Booted                                    // a new process loaded the document
    | RoundBegan(limit: nat)                    // a search round with this check budget
    | TraversalReplaced                         // preparation started a new traversal
    | GuardPassed(at: int)                      // the search's guard found nothing in the way
    | Checked(id: NodeId, found: Found, at: int)
    | RecordVerified(id: NodeId)                // the exact record of the last check was read back
    | Saved(search: Option<Traversal>, replaced: bool, at: int)  // the document reached the disk
    | CursorCounted(observation: Observation, at: int)     // a consumption reached the count
    | SearchPaused(until: int)
    | ApplyStarted(id: NodeId)
    | ApplySucceeded
    | RollbackVerified(receipt: Receipt)
    | LocalRoutesTried
    | OwnerReset                                // the owner enrolled the service anew, or asked to remove it

  type History = Trace<(), Event>

  // ---- what a history means ----

  datatype LastCheck = LastCheck(id: NodeId, found: Found)

  datatype Summary = Summary(
    disk: Option<Traversal>,   // the service's traversal in the document file
    attempt: Option<NodeId>,   // the application that started and neither succeeded nor was rolled back
    succeeded: Option<NodeId>,  // the application that succeeded in this round
    latched: bool,             // a process or a round began over a halted traversal
    checks: nat,               // checks in this round, and its budget
    limit: nat,
    run: nat,                  // trailing run of counted service refusals since the process
                               // started, the traversal was replaced or the search paused
    until: Option<int>,        // the pause that run ended in
    open: Observation,         // what this round observed of the candidate at the cursor
    checked: Option<LastCheck>,  // this round's last check, until an application follows it
    confirmed: bool,           // its record was verified since the check, or since the cursor write
    guarded: bool,             // a guard passed since that, too
    loose: Option<Observation>,  // what this round consumed on disk and has not counted
    tried: set<NodeId>,        // candidates applied in the traversal on disk
    localTried: bool           // local routes tried in it
  ) {
    predicate Unresolved() {
      attempt.Some?
    }

    predicate Halted() {
      disk.Some? && disk.value.halted
    }

    predicate PauseOver(at: int) {
      until.Some? ==> until.value <= at
    }
  }

  /** A save that consumes: the cursor on disk moves forward. */
  predicate Consumes(disk: Option<Traversal>, search: Option<Traversal>, replaced: bool) {
    !replaced && disk.Some? && search.Some? && search.value.cursor > disk.value.cursor
  }

  function Next(s: Summary, e: Event): Summary {
    match e
    case Booted => BeginRound(s, 0).(run := 0, until := None)
    case RoundBegan(limit) => BeginRound(s, limit)
    case TraversalReplaced => s.(run := 0, until := None, loose := None)
    case GuardPassed(_) => s.(guarded := true)
    case Checked(id, found, _) =>
      s.(checks := s.checks + 1, open := ObservationOf(found), checked := Some(LastCheck(id, found)),
         confirmed := false, guarded := false)
    case RecordVerified(_) => s.(confirmed := true, guarded := false)
    case Saved(search, replaced, _) =>
      if replaced then s.(disk := search, tried := {}, localTried := false)
      else if Consumes(s.disk, search, replaced) then
        s.(disk := search, open := Skipped, loose := Some(s.open), confirmed := false, guarded := false)
      else s.(disk := search)
    case CursorCounted(observation, _) =>
      s.(loose := None,
         run := if observation.Skipped? then s.run else if observation.ServiceRefusal? then s.run + 1 else 0)
    case SearchPaused(until) => s.(run := 0, until := Some(until), loose := None)
    case ApplyStarted(id) =>
      s.(attempt := Some(id), tried := s.tried + {id}, checked := None, confirmed := false, guarded := false)
    case ApplySucceeded => s.(attempt := None, succeeded := s.attempt)
    case RollbackVerified(_) => s.(attempt := None)
    case LocalRoutesTried => s.(localTried := true)
    case OwnerReset => s.(disk := None, attempt := None, latched := false, tried := {}, localTried := false)
  }

  function BeginRound(s: Summary, limit: nat): Summary {
    s.(succeeded := None, latched := s.latched || s.Halted(), checks := 0, limit := limit,
       open := Skipped, loose := None, checked := None, confirmed := false, guarded := false)
  }

  function Summarize(h: History): Summary {
    match h
    case Start(_) => Summary(None, None, None, false, 0, 0, 0, None, Skipped, None, false, false, None, {}, false)
    case After(past, e) => Next(Summarize(past), e)
  }

  function Disk(h: History): Option<Traversal> {
    Summarize(h).disk
  }

  predicate DiskHalted(h: History) {
    Summarize(h).Halted()
  }

  // ---- what may happen next ----

  predicate MayReplace(stored: Option<Traversal>, t: Traversal, at: int) {
    stored.Some? ==>
      && !stored.value.halted
      && (stored.value.version != t.version || (stored.value.retryAt.Some? && stored.value.retryAt.value <= at))
  }

  /** What was observed of a candidate was observed by its check and verified. */
  predicate Settled(s: Summary, id: NodeId) {
    !s.open.Skipped? ==> s.confirmed && s.checked.Some? && s.checked.value.id == id
  }

  // The candidate at the end of the consumed prefix.
  function LastConsumed(t: Option<Traversal>): Option<NodeId> {
    if t.Some? && 0 < t.value.cursor <= |t.value.ordered| then Some(t.value.ordered[t.value.cursor - 1]) else None
  }

  /** A save may replace the traversal, or carry it on by one consumption at most,
      outside a pause, behind a guard, after the round's last one was counted. */
  ghost predicate SaveOK(s: Summary, search: Option<Traversal>, replaced: bool, at: int) {
    && ValidOption(search)
    && (s.Unresolved() || s.latched ==> search.Some? && search.value.halted)
    && (if replaced then search.Some? && search.value.cursor == 0 && MayReplace(s.disk, search.value, at)
        else if s.disk.None? then search.None?
        else
          && search.Some? && Continues(s.disk.value, search.value)
          && (Consumes(s.disk, search, replaced) ==>
                && search.value.cursor == s.disk.value.cursor + 1 && s.loose.None? && s.PauseOver(at)
                && s.guarded && Settled(s, LastConsumed(search).value)))
  }

  ghost predicate StepOK(s: Summary, e: Event) {
    match e
    case Saved(search, replaced, at) => SaveOK(s, search, replaced, at)
    case GuardPassed(at) => s.PauseOver(at)
    case Checked(_, _, at) => s.checks < s.limit && s.PauseOver(at) && s.guarded
    case RecordVerified(id) =>
      s.checked.Some? && s.checked.value.id == id && !ObservationOf(s.checked.value.found).Skipped?
    case CursorCounted(observation, at) => s.loose == Some(observation) && s.run < REFUSAL_LIMIT && s.PauseOver(at)
    case SearchPaused(_) => s.run == REFUSAL_LIMIT
    case ApplyStarted(id) =>
      && s.Halted() && !s.Unresolved() && !s.latched && ValidTraversal(s.disk.value)
      && LastConsumed(s.disk) == Some(id) && id !in s.tried
      && s.checked == Some(LastCheck(id, FoundPass)) && s.open.Skipped? && s.confirmed && s.guarded
    case ApplySucceeded => s.Unresolved() && !s.latched
    case RollbackVerified(receipt) => s.attempt == Some(receipt.node) && !s.latched && Accepted(receipt)
    case LocalRoutesTried => s.disk.Some? && s.disk.value.standardRoutesTried && !s.localTried
    case _ => true
  }

  ghost predicate May(p: History, e: Event) {
    StepOK(Summarize(p), e)
  }

  ghost predicate Safe(h: History) {
    Permitted(May, h)
  }

  // ---- what a safe history guarantees ----

  lemma SafeUpTo(p: History, h: History)
    requires Safe(h) && IsPrefix(p, h)
    ensures Safe(p)
  {
    PermittedUpTo(May, p, h);
  }

  /** Write-ahead, as one state: an unresolved application, or a latch found at a
      start, has the halted traversal on disk; every applied candidate is consumed
      on disk; local routes are tried only once that is on disk. */
  ghost predicate Coherent(s: Summary) {
    && ValidOption(s.disk)
    && (s.Unresolved() || s.latched ==> s.Halted())
    && (s.tried != {} ==> s.disk.Some?)
    && (forall id :: id in s.tried ==> id in Consumed(s.disk.value))
    && (s.localTried ==> s.disk.Some? && s.disk.value.standardRoutesTried)
    && s.checks <= s.limit
    && s.run <= REFUSAL_LIMIT
    && (!s.open.Skipped? ==> s.checked.Some? && s.open == ObservationOf(s.checked.value.found))
    && (s.confirmed ==> s.checked.Some?)
  }

  lemma ContinuingKeepsConsumed(before: Traversal, after: Traversal)
    requires Continues(before, after)
    ensures Consumed(before) <= Consumed(after)
    ensures forall id :: id in Consumed(before) ==> id in Consumed(after)
  {
  }

  lemma SaveKeepsCoherent(s: Summary, search: Option<Traversal>, replaced: bool, at: int)
    requires Coherent(s) && SaveOK(s, search, replaced, at)
    ensures Coherent(Next(s, Saved(search, replaced, at)))
  {
    if !replaced && s.disk.Some? {
      ContinuingKeepsConsumed(s.disk.value, search.value);
    }
  }

  lemma StepKeepsCoherent(s: Summary, e: Event)
    requires Coherent(s) && StepOK(s, e)
    ensures Coherent(Next(s, e))
  {
    match e
    case Saved(search, replaced, at) => SaveKeepsCoherent(s, search, replaced, at);
    case ApplyStarted(id) => assert forall x :: x in s.tried + {id} ==> x in Consumed(s.disk.value);
    case Booted =>
    case RoundBegan(_) =>
    case CursorCounted(_, _) =>
    case _ =>
  }

  lemma {:induction false} SafeIsCoherent(h: History)
    requires Safe(h)
    ensures Coherent(Summarize(h))
  {
    if h.After? {
      SafeIsCoherent(h.past);
      StepKeepsCoherent(Summarize(h.past), h.event);
    }
  }

  /** The same at every point where the process may have been cut off. */
  lemma {:induction false} HaltedOnDiskAtEveryCrash(p: History, h: History)
    requires Safe(h) && IsPrefix(p, h)
    ensures Summarize(p).Unresolved() ==> DiskHalted(p)
  {
    SafeUpTo(p, h);
    SafeIsCoherent(p);
  }

  /** What ends the application of a candidate: its success, the receipt of its own
      rollback, or the owner. */
  function Releases(id: NodeId): Event -> bool {
    (e: Event) =>
      || e.ApplySucceeded? || e.OwnerReset?
      || (e.RollbackVerified? && IsReceiptFor(e.receipt, id))
  }

  predicate IsReceiptFor(r: Receipt, id: NodeId) {
    && r.node == id && r.failure.definite && r.failure.execution.rolledBack && r.failure.execution.verified
    && r.failure.execution.plan == r.failure.plan && r.failure.execution.digest == r.failure.digest
    && Route(id, true, true) in r.failure.routes
  }

  function Resets(): Event -> bool {
    (e: Event) => e.OwnerReset?
  }

  // A new traversal on disk, or none.
  function Renews(): Event -> bool {
    (e: Event) => e.OwnerReset? || (e.Saved? && e.replaced)
  }

  function Forgets(): Event -> bool {
    (e: Event) => e.Booted? || e.TraversalReplaced?
  }

  lemma AttemptStays(s: Summary, e: Event)
    requires s.Unresolved() && StepOK(s, e)
    ensures Next(s, e).attempt == s.attempt || Releases(s.attempt.value)(e)
  {
  }

  /** An application stays open, with the halt on disk, until one of these events. */
  lemma {:induction false} HaltedUntilReleased(first: History, last: History)
    requires Safe(last) && IsPrefix(first, last) && Summarize(first).Unresolved()
    ensures Between(first, last, Releases(Summarize(first).attempt.value)) ||
              (Summarize(last).attempt == Summarize(first).attempt && DiskHalted(last))
  {
    SafeIsCoherent(last);
    if first != last {
      HaltedUntilReleased(first, last.past);
      if !Between(first, last.past, Releases(Summarize(first).attempt.value)) {
        AttemptStays(Summarize(last.past), last.event);
      }
    }
  }

  lemma {:induction false} LatchedPersists(first: History, last: History)
    requires IsPrefix(first, last) && Summarize(first).latched
    ensures Summarize(last).latched || Between(first, last, Resets())
  {
    if first != last {
      LatchedPersists(first, last.past);
    }
  }

  /** Between two applications the first one succeeded, was rolled back with an
      accepted receipt of its own, or the owner enrolled the service anew. */
  lemma ApplicationsNeverOverlap(p: History, id: NodeId, q: History, id': NodeId, h: History)
    requires Safe(h)
    requires IsPrefix(After(p, ApplyStarted(id)), q) && IsPrefix(After(q, ApplyStarted(id')), h)
    ensures Between(After(p, ApplyStarted(id)), q, Releases(id))
  {
    SafeUpTo(After(q, ApplyStarted(id')), h);
    HaltedUntilReleased(After(p, ApplyStarted(id)), q);
  }

  lemma LatchedAttemptStays(s: Summary, e: Event)
    requires s.latched && StepOK(s, e) && !e.OwnerReset?
    ensures Next(s, e).latched && Next(s, e).attempt == s.attempt
  {
  }

  /** An application that a crash cut off waits, halted on disk, for the owner: no
      success and no receipt is accepted for it any more. */
  lemma {:induction false} CrashedApplicationWaits(p: History, q: History)
    requires Safe(q) && IsPrefix(After(p, Booted), q) && Summarize(p).Unresolved()
    ensures Between(After(p, Booted), q, Resets()) ||
              (Summarize(q).attempt == Summarize(p).attempt && Summarize(q).latched && DiskHalted(q))
  {
    SafeIsCoherent(q);
    if After(p, Booted) == q {
      SafeIsCoherent(p);
    } else {
      CrashedApplicationWaits(p, q.past);
      if !Between(After(p, Booted), q, Resets()) {
        LatchedAttemptStays(Summarize(q.past), q.event);
      }
    }
  }

  /** A traversal found halted by a restart or by a round is never searched into
      another application, whatever version later rounds ask for; only the owner
      can lift it. */
  lemma HaltedStopsEveryLaterRound(p: History, e: Event, q: History, id: NodeId, h: History)
    requires Safe(h)
    requires e.Booted? || e.RoundBegan?
    requires DiskHalted(p)
    requires IsPrefix(After(p, e), q) && IsPrefix(After(q, ApplyStarted(id)), h)
    ensures Between(After(p, e), q, Resets())
  {
    SafeUpTo(After(q, ApplyStarted(id)), h);
    LatchedPersists(After(p, e), q);
  }

  lemma {:induction false} TriedPersists(first: History, last: History)
    requires IsPrefix(first, last)
    ensures Summarize(first).tried <= Summarize(last).tried || Between(first, last, Renews())
  {
    if first != last {
      TriedPersists(first, last.past);
    }
  }

  lemma AppliedOncePerTraversal(p: History, q: History, id: NodeId, h: History)
    requires Safe(h)
    requires IsPrefix(After(p, ApplyStarted(id)), q) && IsPrefix(After(q, ApplyStarted(id)), h)
    ensures Between(After(p, ApplyStarted(id)), q, Renews())
  {
    SafeUpTo(After(q, ApplyStarted(id)), h);
    TriedPersists(After(p, ApplyStarted(id)), q);
    assert id in Summarize(After(p, ApplyStarted(id))).tried;
  }

  /** While the traversal is not replaced, the consumed prefix on disk only grows,
      across rounds, restarts and reorderings. */
  lemma {:induction false} ConsumedPrefixIsFrozen(first: History, last: History)
    requires Safe(last) && IsPrefix(first, last)
    requires Disk(first).Some? && !Between(first, last, Renews())
    ensures Disk(last).Some? && Continues(Disk(first).value, Disk(last).value)
    ensures Consumed(Disk(first).value) <= Consumed(Disk(last).value)
  {
    if first == last {
      SafeIsCoherent(first);
    } else {
      ConsumedPrefixIsFrozen(first, last.past);
      if last.event.Saved? {
        ContinuesIsTransitive(Disk(first).value, Disk(last.past).value, Disk(last).value);
      }
    }
    ContinuingKeepsConsumed(Disk(first).value, Disk(last).value);
  }

  /** A halted traversal is never replaced, not even for another version; any other only for
      another version or after its recheck time. */
  lemma HaltedIsNeverReplaced(p: History, search: Option<Traversal>, at: int, h: History)
    requires Safe(h) && IsPrefix(After(p, Saved(search, true, at)), h)
    ensures !DiskHalted(p) && !Summarize(p).Unresolved() && !Summarize(p).latched
    ensures search.Some? && search.value.cursor == 0
    ensures Disk(p).Some? ==>
              || Disk(p).value.version != search.value.version
              || (Disk(p).value.retryAt.Some? && Disk(p).value.retryAt.value <= at)
  {
    SafeUpTo(After(p, Saved(search, true, at)), h);
    SafeIsCoherent(p);
  }

  // ---- what leads to an application ----

  // A process, a round, a check or an application begins.
  function Begins(): Event -> bool {
    (e: Event) => e.Booted? || e.RoundBegan? || e.Checked? || e.ApplyStarted?
  }

  lemma CheckStays(s: Summary, e: Event)
    requires Next(s, e).checked.Some? && !e.Checked?
    ensures s.checked == Next(s, e).checked && !Begins()(e)
  {
  }

  // The check this round made last.
  lemma {:induction false} CheckedLast(p: History) returns (checked: History)
    requires Summarize(p).checked.Some?
    ensures IsPrefix(checked, p) && !Between(checked, p, Begins())
    ensures checked.After? && checked.event.Checked?
    ensures Summarize(p).checked == Some(LastCheck(checked.event.id, checked.event.found))
  {
    if p.event.Checked? {
      checked := p;
    } else {
      CheckStays(Summarize(p.past), p.event);
      checked := CheckedLast(p.past);
    }
  }

  lemma ConfirmationStays(s: Summary, e: Event)
    requires Coherent(s) && StepOK(s, e) && Next(s, e).confirmed && !e.RecordVerified?
    ensures s.confirmed && Next(s, e).checked == s.checked && !Begins()(e)
    ensures LastConsumed(Next(s, e).disk).Some? ==> LastConsumed(s.disk) == LastConsumed(Next(s, e).disk)
    ensures Next(s, e).guarded ==> s.guarded || e.GuardPassed?
  {
  }

  // Its record was read back, behind the cursor write that is on disk since.
  lemma {:induction false} VerifiedLast(p: History) returns (verified: History)
    requires Safe(p) && Summarize(p).confirmed
    ensures IsPrefix(verified, p) && verified.After? && verified.event.RecordVerified?
    ensures !Between(verified, p, Begins())
    ensures Summarize(p).checked.Some? && Summarize(p).checked.value.id == verified.event.id
    ensures Summarize(verified).checked == Summarize(p).checked
    ensures LastConsumed(Disk(p)).Some? ==> LastConsumed(Disk(verified)) == LastConsumed(Disk(p))
  {
    if p.event.RecordVerified? {
      verified := p;
    } else {
      SafeIsCoherent(p.past);
      ConfirmationStays(Summarize(p.past), p.event);
      verified := VerifiedLast(p.past);
    }
  }

  // And a guard passed behind it.
  lemma {:induction false} ClearedLast(p: History) returns (verified: History, cleared: History)
    requires Safe(p) && Summarize(p).confirmed && Summarize(p).guarded
    ensures IsPrefix(verified, cleared) && verified.After? && verified.event.RecordVerified?
    ensures IsPrefix(verified, p) && !Between(verified, p, Begins())
    ensures IsPrefix(cleared, p) && cleared.After? && cleared.event.GuardPassed?
    ensures Summarize(p).checked.Some? && Summarize(p).checked.value.id == verified.event.id
    ensures Summarize(verified).checked == Summarize(p).checked
    ensures LastConsumed(Disk(p)).Some? ==> LastConsumed(Disk(verified)) == LastConsumed(Disk(p))
  {
    if p.event.GuardPassed? {
      verified := VerifiedLast(p);
      cleared := p;
    } else {
      SafeIsCoherent(p.past);
      ConfirmationStays(Summarize(p.past), p.event);
      verified, cleared := ClearedLast(p.past);
    }
  }

  /** An application is of the candidate this round checked last, with a pass that no
      other application has used; with the candidate consumed on disk its record was
      read back, and a guard passed after that. */
  lemma EveryApplicationWasCleared(p: History, id: NodeId, h: History)
    returns (checked: History, verified: History, cleared: History)
    requires Safe(h) && IsPrefix(After(p, ApplyStarted(id)), h)
    ensures checked.After? && checked.event.Checked? && checked.event.id == id && checked.event.found.FoundPass?
    ensures verified.After? && verified.event == RecordVerified(id) && LastConsumed(Disk(verified)) == Some(id)
    ensures cleared.After? && cleared.event.GuardPassed?
    ensures IsPrefix(checked, verified) && IsPrefix(verified, cleared) && IsPrefix(cleared, p)
    ensures IsPrefix(checked, p) && !Between(checked, p, Begins())
  {
    SafeUpTo(After(p, ApplyStarted(id)), h);
    verified, cleared := ClearedLast(p);
    checked := CheckedLast(verified);
    PrefixIsTransitive(checked, verified, p);
    SameCheck(checked, verified, p);
  }

  // The last check is one and the same.
  lemma SameCheck(checked: History, verified: History, p: History)
    requires IsPrefix(checked, verified) && IsPrefix(verified, p) && IsPrefix(checked, p)
    requires !Between(checked, verified, Begins()) && !Between(verified, p, Begins())
    ensures !Between(checked, p, Begins())
  {
    if verified != p {
      PrefixIsTransitive(checked, verified, p.past);
      SameCheck(checked, verified, p.past);
    }
  }

  lemma {:induction false} GuardedLast(p: History) returns (cleared: History)
    requires Summarize(p).guarded
    ensures IsPrefix(cleared, p) && cleared.After? && cleared.event.GuardPassed?
    ensures !Between(cleared, p, Begins()) && !Moves(cleared, p)
  {
    if p.event.GuardPassed? {
      cleared := p;
    } else {
      cleared := GuardedLast(p.past);
    }
  }

  /** Every check, consumption and application follows a guard that passed since the
      check, consumption or application before it. */
  lemma NothingWithoutAGuard(p: History, e: Event, h: History) returns (cleared: History)
    requires Safe(h) && IsPrefix(After(p, e), h)
    requires e.Checked? || e.ApplyStarted? || IsConsumption(After(p, e))
    ensures IsPrefix(cleared, p) && cleared.After? && cleared.event.GuardPassed?
    ensures !Between(cleared, p, Begins()) && !Moves(cleared, p)
  {
    SafeUpTo(After(p, e), h);
    cleared := GuardedLast(p);
  }

  /** What is consumed with an observation is the candidate of the last check, with what
      that check found, once its record was read back. */
  lemma ConsumedAsChecked(h: History) returns (checked: History, verified: History)
    requires Safe(h) && IsConsumption(h) && !Summarize(h.past).open.Skipped?
    ensures checked.After? && checked.event.Checked? && LastConsumed(Disk(h)) == Some(checked.event.id)
    ensures Summarize(h.past).open == ObservationOf(checked.event.found)
    ensures verified.After? && verified.event == RecordVerified(checked.event.id)
    ensures IsPrefix(checked, verified) && IsPrefix(verified, h.past)
    ensures IsPrefix(checked, h.past) && !Between(checked, h.past, Begins())
  {
    SafeIsCoherent(h.past);
    verified := VerifiedLast(h.past);
    checked := CheckedLast(verified);
    PrefixIsTransitive(checked, verified, h.past);
    SameCheck(checked, verified, h.past);
  }

  // ---- the refusal count ----

  /** The outcomes that counted since the process started, the traversal was replaced
      or the search paused; a skipped candidate has none. */
  function Outcomes(h: History): seq<Observation> {
    match h
    case Start(_) => []
    case After(past, e) =>
      if e.Booted? || e.TraversalReplaced? || e.SearchPaused? then []
      else if e.CursorCounted? && !e.observation.Skipped? then Outcomes(past) + [e.observation]
      else Outcomes(past)
  }

  predicate Refused(outcomes: seq<Observation>, from: nat, to: nat) {
    from <= to <= |outcomes| && forall i :: from <= i < to ==> outcomes[i].ServiceRefusal?
  }

  /** The count is the length of the longest run of refusals the outcomes end with. */
  lemma {:induction false} CountIsTheTrailingRun(h: History)
    ensures var o, n := Outcomes(h), Summarize(h).run;
            && n <= |o| && Refused(o, |o| - n, |o|)
            && (n < |o| ==> !o[|o| - n - 1].ServiceRefusal?)
  {
    if h.After? {
      CountIsTheTrailingRun(h.past);
    }
  }

  /** Three refusals in a row are the last that is consumed before a pause. */
  lemma {:induction false} ThreeRefusalsEndTheRun(h: History, i: nat)
    requires Safe(h) && Refused(Outcomes(h), i, i + REFUSAL_LIMIT)
    ensures i + REFUSAL_LIMIT == |Outcomes(h)| && Summarize(h).run == REFUSAL_LIMIT
  {
    var o := Outcomes(h);
    if i + REFUSAL_LIMIT == |o| {
      CountIsTheTrailingRun(h);
      SafeIsCoherent(h);
      var n := Summarize(h).run;
      assert n < REFUSAL_LIMIT ==> i <= |o| - n - 1 < |o|;
    } else {
      var p := Outcomes(h.past);
      assert o == p || o == p + [o[|o| - 1]];
      assert forall k :: i <= k < i + REFUSAL_LIMIT ==> o[k] == p[k];
      ThreeRefusalsEndTheRun(h.past, i);
    }
  }

  // ---- what was consumed, counted or not ----

  datatype Taken = Taken(outcome: Observation, counted: bool)

  ghost predicate IsConsumption(h: History) {
    h.After? && h.event.Saved? && Consumes(Disk(h.past), h.event.search, h.event.replaced)
  }

  /** The candidates consumed on disk since the process started, the traversal was
      replaced or the search paused, with what was observed of each. */
  function Consumptions(h: History): seq<Taken> {
    match h
    case Start(_) => []
    case After(past, e) =>
      var c := Consumptions(past);
      if e.Booted? || e.TraversalReplaced? || e.SearchPaused? then []
      else if e.Saved? && Consumes(Disk(past), e.search, e.replaced) then c + [Taken(Summarize(past).open, false)]
      else if e.CursorCounted? && |c| > 0 then c[..|c| - 1] + [c[|c| - 1].(counted := true)]
      else c
  }

  /** The rounds that were under way since then. */
  function Rounds(h: History): nat {
    match h
    case Start(_) => 1
    case After(past, e) =>
      if e.Booted? || e.TraversalReplaced? || e.SearchPaused? then 1
      else if e.RoundBegan? then Rounds(past) + 1
      else Rounds(past)
  }

  // Guards, checks and their records alone consume nothing.
  lemma CheckTellsNothing(h: History, e: Event)
    requires e.Checked? || e.GuardPassed? || e.RecordVerified?
    ensures Consumptions(After(h, e)) == Consumptions(h)
    ensures Outcomes(After(h, e)) == Outcomes(h)
  {
  }

  lemma SaveTellsNothing(h: History, search: Option<Traversal>, replaced: bool, at: int)
    requires !Consumes(Disk(h), search, replaced)
    ensures Consumptions(After(h, Saved(search, replaced, at))) == Consumptions(h)
    ensures Outcomes(After(h, Saved(search, replaced, at))) == Outcomes(h)
  {
  }

  function IsObserved(): Taken -> bool {
    (t: Taken) => !t.outcome.Skipped?
  }

  function IsCounted(): Taken -> bool {
    (t: Taken) => t.counted
  }

  function IsUncounted(): Taken -> bool {
    (t: Taken) => !t.counted
  }

  function OutcomesOf(s: seq<Taken>): (r: seq<Observation>)
    ensures |r| == |s| && forall i :: 0 <= i < |s| ==> r[i] == s[i].outcome
  {
    seq(|s|, i requires 0 <= i < |s| => s[i].outcome)
  }

  // What is consumed and not yet counted in this round comes last.
  lemma {:induction false} LooseIsLast(h: History)
    requires Safe(h) && Summarize(h).loose.Some?
    ensures var c := Consumptions(h); |c| > 0 && c[|c| - 1] == Taken(Summarize(h).loose.value, false)
  {
    if !IsConsumption(h) {
      LooseStays(Summarize(h.past), h.event);
      LooseIsLast(h.past);
    }
  }

  // Only a consumption makes one loose, and counting it or a reset ends that.
  lemma LooseStays(s: Summary, e: Event)
    requires Next(s, e).loose.Some? && !(e.Saved? && Consumes(s.disk, e.search, e.replaced))
    ensures s.loose == Next(s, e).loose
    ensures !e.Booted? && !e.RoundBegan? && !e.TraversalReplaced? && !e.SearchPaused? && !e.CursorCounted?
  {
  }

  lemma FilterAdd<T>(keep: T -> bool, s: seq<T>, x: T)
    ensures Filter(keep, s + [x]) == if keep(x) then Filter(keep, s) + [x] else Filter(keep, s)
  {
    FilterOfConcat(keep, s, [x]);
    assert Filter(keep, s) + [] == Filter(keep, s);
  }

  function Uncounted(s: seq<Taken>): nat {
    |Filter(IsUncounted(), s)|
  }

  lemma UncountedAdd(s: seq<Taken>, t: Taken)
    ensures Uncounted(s + [t]) == Uncounted(s) + if t.counted then 0 else 1
  {
    FilterAdd(IsUncounted(), s, t);
  }

  lemma CountingTheLast(c: seq<Taken>)
    requires |c| > 0 && !c[|c| - 1].counted
    ensures Uncounted(c[..|c| - 1] + [c[|c| - 1].(counted := true)]) == Uncounted(c) - 1
  {
    var init, t := c[..|c| - 1], c[|c| - 1];
    assert c == init + [t];
    UncountedAdd(init, t);
    UncountedAdd(init, t.(counted := true));
  }

  lemma UncountedStep(h: History)
    requires Safe(h) && (IsConsumption(h) || (h.After? && h.event.CursorCounted?))
    ensures Uncounted(Consumptions(h)) == Uncounted(Consumptions(h.past)) + if h.event.Saved? then 1 else -1
  {
    var c := Consumptions(h.past);
    if h.event.Saved? {
      UncountedAdd(c, Taken(Summarize(h.past).open, false));
    } else {
      LooseIsLast(h.past);
      CountingTheLast(c);
    }
  }

  /** A round leaves at most one consumption uncounted. */
  lemma {:induction false} OneUncountedPerRound(h: History)
    requires Safe(h)
    ensures Uncounted(Consumptions(h)) <= Rounds(h) - if Summarize(h).loose.None? then 1 else 0
  {
    if h.After? {
      OneUncountedPerRound(h.past);
      if IsConsumption(h) || h.event.CursorCounted? {
        UncountedStep(h);
      } else if Summarize(h).loose.Some? {
        LooseStays(Summarize(h.past), h.event);
      }
    }
  }

  // The outcomes of the counted observations among these.
  function CountedOutcomes(s: seq<Taken>): seq<Observation> {
    OutcomesOf(Filter(IsCounted(), Filter(IsObserved(), s)))
  }

  lemma CountedOutcomesAdd(s: seq<Taken>, t: Taken)
    ensures CountedOutcomes(s + [t]) ==
            if t.counted && !t.outcome.Skipped? then CountedOutcomes(s) + [t.outcome] else CountedOutcomes(s)
  {
    FilterAdd(IsObserved(), s, t);
    FilterAdd(IsCounted(), Filter(IsObserved(), s), t);
    var f := Filter(IsCounted(), Filter(IsObserved(), s));
    assert OutcomesOf(f + [t]) == OutcomesOf(f) + [t.outcome];
  }

  /** What was counted are exactly the outcomes: the observed consumptions whose
      write reached the count, in their order. */
  lemma {:induction false} CountedAreTheOutcomes(h: History)
    requires Safe(h)
    ensures Outcomes(h) == CountedOutcomes(Consumptions(h))
  {
    if h.After? {
      CountedAreTheOutcomes(h.past);
      var c := Consumptions(h.past);
      if IsConsumption(h) {
        CountedOutcomesAdd(c, Taken(Summarize(h.past).open, false));
      } else if h.event.CursorCounted? {
        LooseIsLast(h.past);
        var init, t := c[..|c| - 1], c[|c| - 1];
        assert c == init + [t];
        CountedOutcomesAdd(init, t);
        CountedOutcomesAdd(init, t.(counted := true));
      }
    }
  }

  lemma {:induction false} CountedOrNot(s: seq<Taken>)
    ensures |s| == |Filter(IsCounted(), s)| + |Filter(IsUncounted(), s)|
  {
    if |s| > 0 {
      CountedOrNot(s[1..]);
    }
  }

  ghost predicate AllRefused(s: seq<Taken>) {
    forall i :: 0 <= i < |s| ==> s[i].outcome.ServiceRefusal?
  }

  lemma FilterAllRefused(keep: Taken -> bool, s: seq<Taken>)
    requires AllRefused(s)
    ensures AllRefused(Filter(keep, s))
  {
  }

  lemma CountedOfRow(h: History, before: seq<Taken>, row: seq<Taken>, later: seq<Taken>)
    requires Safe(h) && Filter(IsObserved(), Consumptions(h)) == before + row + later && AllRefused(row)
    ensures |Filter(IsCounted(), row)| <= REFUSAL_LIMIT
  {
    var kept := IsCounted();
    var b, r, l := Filter(kept, before), Filter(kept, row), Filter(kept, later);
    FilterOfConcat(kept, before + row, later);
    FilterOfConcat(kept, before, row);
    CountedAreTheOutcomes(h);
    FilterAllRefused(kept, row);
    if |r| > REFUSAL_LIMIT {
      RowIsRefused(b, r, l);
      ThreeRefusalsEndTheRun(h, |b|);
    }
  }

  lemma RowIsRefused(before: seq<Taken>, row: seq<Taken>, later: seq<Taken>)
    requires AllRefused(row)
    ensures Refused(OutcomesOf(before + row + later), |before|, |before| + |row|)
  {
    forall i | |before| <= i < |before| + |row| ensures OutcomesOf(before + row + later)[i].ServiceRefusal? {
      assert (before + row + later)[i] == row[i - |before|];
    }
  }

  /** How many refusals in a row may be consumed before the search pauses: three and
      those that were not counted, one for a round. `before`, `row` and `later` are
      the observed consumptions. */
  lemma RefusalsInARow(h: History, before: seq<Taken>, row: seq<Taken>, later: seq<Taken>)
    requires Safe(h) && Filter(IsObserved(), Consumptions(h)) == before + row + later && AllRefused(row)
    ensures |row| <= REFUSAL_LIMIT + Uncounted(row)
    ensures Uncounted(row) <= Rounds(h)
  {
    CountedOrNot(row);
    CountedOfRow(h, before, row, later);
    UncountedOfRow(h, before, row, later);
  }

  lemma UncountedOfRow(h: History, before: seq<Taken>, row: seq<Taken>, later: seq<Taken>)
    requires Safe(h) && Filter(IsObserved(), Consumptions(h)) == before + row + later
    ensures Uncounted(row) <= Rounds(h)
  {
    OneUncountedPerRound(h);
    FilterOfConcat(IsUncounted(), before + row, later);
    FilterOfConcat(IsUncounted(), before, row);
    FilterShrinks(IsUncounted(), IsObserved(), Consumptions(h));
  }

  lemma {:induction false} FilterShrinks<T>(keep: T -> bool, first: T -> bool, s: seq<T>)
    ensures |Filter(keep, Filter(first, s))| <= |Filter(keep, s)|
  {
    if |s| > 0 {
      FilterShrinks(keep, first, s[1..]);
      var f := Filter(first, s[1..]);
      assert ([s[0]] + f)[1..] == f;
    }
  }

  // ---- the pause ----

  ghost predicate Moves(first: History, last: History)
    requires IsPrefix(first, last)
  {
    first != last && (last.event.Checked? || IsConsumption(last) || Moves(first, last.past))
  }

  lemma PauseStays(s: Summary, e: Event)
    requires s.until.Some? && s.run == 0 && s.loose.None? && StepOK(s, e)
    requires !Forgets()(e) && !e.Checked? && !(e.Saved? && Consumes(s.disk, e.search, e.replaced))
    ensures var n := Next(s, e); n.until == s.until && n.run == 0 && n.loose.None?
  {
  }

  /** Until something is checked or consumed, the pause stands, and the cursor on disk
      stays where the pause found it. */
  lemma {:induction false} PauseHolds(first: History, until: int, last: History)
    requires Safe(last) && IsPrefix(first, last)
    requires first.After? && first.event == SearchPaused(until)
    requires !Between(first, last, Forgets()) && !Moves(first, last)
    ensures var s := Summarize(last); s.until == Some(until) && s.run == 0 && s.loose.None?
    ensures Disk(first).Some? && !Between(first, last, Renews()) ==>
              && Disk(last).Some? && Continues(Disk(first).value, Disk(last).value)
              && Disk(last).value.cursor == Disk(first).value.cursor
  {
    if first == last {
      SafeIsCoherent(first);
    } else {
      PauseHolds(first, until, last.past);
      PauseStays(Summarize(last.past), last.event);
      if last.event.Saved? && Disk(first).Some? && !Between(first, last, Renews()) {
        ContinuesIsTransitive(Disk(first).value, Disk(last.past).value, Disk(last).value);
      }
    }
  }

  /** Nothing is checked during the pause and nothing is consumed: the next check or
      consumption of that traversal in that process comes no earlier than its end. */
  lemma NothingMovesDuringThePause(p: History, until: int, q: History, e: Event, h: History)
    requires Safe(h)
    requires IsPrefix(After(p, SearchPaused(until)), q) && IsPrefix(After(q, e), h)
    requires !Between(After(p, SearchPaused(until)), q, Forgets()) && !Moves(After(p, SearchPaused(until)), q)
    requires e.Checked? || IsConsumption(After(q, e))
    ensures until <= e.at
  {
    SafeUpTo(After(q, e), h);
    PauseHolds(After(p, SearchPaused(until)), until, q);
  }

  /** And the search resumes at the same cursor: that consumption takes the candidate
      right behind the prefix that was consumed when the search paused. */
  lemma SearchResumesAtTheSameCursor(p: History, until: int, q: History, e: Event, h: History)
    requires Safe(h)
    requires IsPrefix(After(p, SearchPaused(until)), q) && IsPrefix(After(q, e), h)
    requires !Between(After(p, SearchPaused(until)), q, Forgets()) &&
        !Between(After(p, SearchPaused(until)), q, Renews())
    requires !Moves(After(p, SearchPaused(until)), q)
    requires Disk(p).Some? && IsConsumption(After(q, e))
    ensures e.search.value.cursor == Disk(p).value.cursor + 1
    ensures Continues(Disk(p).value, e.search.value)
  {
    var first := After(p, SearchPaused(until));
    SafeUpTo(After(q, e), h);
    PauseHolds(first, until, q);
    assert Disk(first) == Disk(p);
    ContinuesIsTransitive(Disk(p).value, Disk(q).value, e.search.value);
  }

  lemma {:induction false} LocalTriedPersists(first: History, last: History)
    requires IsPrefix(first, last) && Summarize(first).localTried
    ensures Summarize(last).localTried || Between(first, last, Renews())
  {
    if first != last {
      LocalTriedPersists(first, last.past);
    }
  }

  /** Local routes are tried at most once in a traversal, and only after the fact
      that they are is on disk. */
  lemma LocalRoutesTriedOnce(p: History, q: History, h: History)
    requires Safe(h)
    requires IsPrefix(After(p, LocalRoutesTried), q) && IsPrefix(After(q, LocalRoutesTried), h)
    ensures Between(After(p, LocalRoutesTried), q, Renews())
  {
    SafeUpTo(After(q, LocalRoutesTried), h);
    LocalTriedPersists(After(p, LocalRoutesTried), q);
  }
}

/** The autopilot's search for the first usable candidate of one service: the
    library loop, the hooks it drives, and the round that surrounds them. The
    outcomes of checks, applications, guards and file writes are arbitrary; the
    fields of the round are the variables its hooks capture. */
module FirstUsable {
  import opened Basics
  import opened Histories
  import opened Sorting
  import opened Traversals
  import opened SearchHistory
  import opened RollbackReceipts

  datatype Refusals = Refusals(version: Version, count: nat, until: Option<int>)

  /** One consumed check: a refusal extends the run, any other outcome ends it. */
  function Observe(g: Refusals, refusal: bool): Refusals {
    if refusal then g.(count := g.count + 1) else g.(count := 0)
  }

  datatype SaveResult = Confirmed | NotAttempted | Failed

  datatype Error =
    NoError | Stopped | RefusalPause | BadRequest | Inconclusive | NotPersisted | OverBudget | ApplyFailed

  datatype CheckOutcome = CheckError | Unsupported | Usable | DefiniteFailure

  // ---- what the outside decides ----

  // A write reaches the file and is confirmed; reaches it and fails; does not reach it.
  datatype Write = Lands | LandsUnconfirmed | Lost

  // Time passes, and the round's context may be canceled.
  datatype Moment = Moment(later: int, cancel: bool) {
    predicate Quiet(now: int) {
      later <= now && !cancel
    }
  }

  // What a guard finds besides the context: other settings, an unreadable document.
  datatype Reads = Reads(moment: Moment, changed: bool, unreadable: bool) {
    predicate Quiet(now: int) {
      moment.Quiet(now) && !changed && !unreadable
    }
  }

  // One cursor write between its guards.
  datatype CursorStep = CursorStep(before: Reads, saving: Moment, w: Write, after: Reads) {
    predicate Quiet(now: int) {
      before.Quiet(now) && saving.Quiet(now) && w.Lands? && after.Quiet(now)
    }
  }

  // One application: a switch is left in the budget, the halt is saved, the
  // transaction commits, its record is saved.
  datatype Application = Application(affordable: bool, starting: Moment, latch: Write, running: Moment,
                                     committed: bool, record: Write) {
    predicate Quiet(now: int) {
      starting.Quiet(now) && latch.Lands? && running.Quiet(now) && record.Lands?
    }
  }

  // What is found after a failed one, and the save that lifts the halt.
  datatype Rollback = Rollback(authority: Reads, failure: Failure, reported: Option<Execution>, lifting: Moment,
                               w: Write, after: Reads) {
    predicate Quiet(now: int) {
      authority.Quiet(now) && lifting.Quiet(now) && w.Lands? && after.Quiet(now)
    }
  }

  datatype Trial = Trial(application: Application, after: Reads, rollback: Rollback, last: Reads) {
    predicate Quiet(now: int) {
      application.Quiet(now) && after.Quiet(now) && rollback.Quiet(now) && last.Quiet(now)
    }
  }

  // One turn of the library loop.
  datatype Turn = Turn(start: Reads, unreadable: bool, eligible: bool, found: Found, checking: Moment, checked: Reads,
                       recorded: bool, step: CursorStep, reread: Reads, stillUsable: bool, cleared: Reads,
                       trial: Trial) {
    /** Nothing comes in the way: no time passes, nothing changes, every write lands and
        the record of the check is there. */
    predicate Quiet(now: int) {
      && start.Quiet(now) && !unreadable && checking.Quiet(now) && checked.Quiet(now) && recorded
      && step.Quiet(now) && reread.Quiet(now) && stillUsable && cleared.Quiet(now) && trial.Quiet(now)
    }

    predicate Commits() {
      trial.application.affordable && trial.application.committed
    }
  }

  // One bounded search, the trial of local routes, and the whole round.
  datatype Phase = Phase(first: Reads, turns: nat -> Turn)

  datatype LocalTrial = LocalTrial(saving: Write, applies: bool, w: Write, settled: bool)

  datatype Outside = Outside(opening: Write, start: Reads, preparing: Moment, sourcesUnreadable: bool, saving: Write,
                             waiting: Write, preferred: Phase, local: LocalTrial, rest: Phase, closing: Write)

  /** How a turn ends that nothing gets in the way of, before any application: what is not
      confirmed stops the search, and so does the third refusal in a row. */
  predicate ConsumesQuietly(found: Found, skips: bool, refusedBefore: nat, err: Error) {
    if skips || found.FoundUnsupported? || found.FoundPass? || found.FoundFailure? then err.NoError?
    else if found.FoundRefusal? then err.NoError? || (err.RefusalPause? && refusedBefore + 1 == REFUSAL_LIMIT)
    else err.Inconclusive?
  }

  function OutcomeOf(f: Found): CheckOutcome {
    match f
    case FoundUnsupported => Unsupported
    case FoundError => CheckError
    case FoundUnclear => CheckError
    case FoundPass => Usable
    case FoundRefusal => DefiniteFailure
    case FoundFailure => DefiniteFailure
  }

  datatype RoundState =
    Paused | RequiresReview | CatalogUnavailable | Searching | ServiceUnconfirmed | RateLimited | Unsettled | Done

  function Observed(observed: bool, refused: bool): Observation {
    if !observed then Skipped else if refused then ServiceRefusal else OtherOutcome
  }

  function Counted(g: Refusals, observed: bool, refused: bool): Refusals {
    if observed then Observe(g, refused) else g
  }

  /** The third refusal in a row starts a pause and a new run. */
  function AfterPause(g: Refusals, retryAt: Option<int>): Refusals {
    if g.count >= REFUSAL_LIMIT then Refusals(g.version, 0, retryAt) else g
  }

  // The same list, its cursor one further at most.
  ghost predicate OneFurther(before: Traversal, after: Traversal) {
    Further(before, after, 1)
  }

  ghost predicate Further(before: Traversal, after: Traversal, count: int) {
    && after.ordered == before.ordered && after.standardRoutesTried == before.standardRoutesTried
    && before.cursor <= after.cursor <= before.cursor + count
  }

  // No application and no start between two states.
  ghost predicate SameApplications(before: Summary, after: Summary) {
    && after.attempt == before.attempt && after.succeeded == before.succeeded && after.latched == before.latched
    && after.tried == before.tried && after.localTried == before.localTried
  }

  // And no check.
  ghost predicate Carried(before: Summary, after: Summary) {
    SameApplications(before, after) && SameChecks(before, after)
  }

  // The check and what has confirmed it since are the same.
  ghost predicate SameClearance(before: Summary, after: Summary) {
    after.checked == before.checked && after.confirmed == before.confirmed && after.guarded == before.guarded
  }

  ghost predicate SameChecks(before: Summary, after: Summary) {
    after.checks == before.checks && after.limit == before.limit
  }

  /** The traversal a cursor write produces: one candidate further, exhausted at
      the end, with a recheck time when exhausted or when the search pauses. */
  function CursorWritten(t: Traversal, cursor: int, pausing: bool, recheck: int): Traversal {
    var exhausted := cursor == |t.ordered|;
    t.(cursor := cursor, exhausted := exhausted, retryAt := if exhausted || pausing then Some(recheck) else t.retryAt)
  }

  lemma CursorWrittenContinues(t: Traversal, pausing: bool, recheck: int)
    requires ValidTraversal(t) && t.cursor < |t.ordered|
    ensures Continues(t, CursorWritten(t, t.cursor + 1, pausing, recheck))
  {
  }

  lemma PendingIsUntried(s: Summary, t: Traversal)
    requires Coherent(s) && s.disk.Some? && Continues(s.disk.value, t) && t.cursor < |t.ordered|
    ensures t.ordered[t.cursor] !in s.tried
  {
    ContinuingKeepsConsumed(s.disk.value, t);
    ConsumedAndPendingAreDisjoint(t);
    assert Pending(t)[0] == t.ordered[t.cursor];
  }

  /** A cursor write consumes exactly the candidate at the cursor. */
  lemma CursorWrittenConsumesOne(t: Traversal, pausing: bool, recheck: int)
    requires ValidTraversal(t) && t.cursor < |t.ordered|
    ensures Consumed(CursorWritten(t, t.cursor + 1, pausing, recheck)) == Consumed(t) + [t.ordered[t.cursor]]
    ensures Pending(CursorWritten(t, t.cursor + 1, pausing, recheck)) == Pending(t)[1..]
  {
  }

  class Autopilot {
    // the document file, and this process's copy of this service's entry
    var disk: Option<Traversal>
    var blocked: bool
    var entry: Option<Traversal>
    var stored: Option<Refusals>
    var now: int
    // the round
    var t: Traversal
    var refusals: Refusals
    var offset: int
    var window: int
    var observed: bool
    var refused: bool
    var canceled: bool
    var checksLeft: int
    const reserve: int  // ReserveSeconds: the recheck and pause interval
    // what has happened, since the round began and before
    var replaced: bool
    ghost var origin: History
    var history: History   // kept, so that a crash can cut it anywhere
    ghost var sum: Summary

    ghost predicate Recorded()
      reads this
    {
      && Safe(history) && sum == Summarize(history) && IsPrefix(origin, history)
      && disk == sum.disk
    }

    /** Between rounds. */
    ghost predicate Valid()
      reads this
    {
      && Recorded()
      && ValidOption(entry)
      && (!blocked ==> entry == disk)
      && sum.run < REFUSAL_LIMIT
      && (match stored
          case None => sum.run == 0 && sum.until == None
          case Some(g) =>
            && g.count == sum.run && g.until == sum.until
            && (!blocked && entry.Some? ==> g.version == entry.value.version))
    }

    /** Inside a round: the traversal may be saved, and is at most one consumption
        ahead of the disk. */
    ghost predicate Underway()
      reads this
    {
      && Recorded()
      && ValidTraversal(t)
      && !sum.latched
      && (!blocked ==> if replaced then t.cursor == 0 && MayReplace(disk, t, now)
                       else
                         && disk.Some? && Continues(disk.value, t) && t.cursor <= disk.value.cursor + 1
                         && (t.cursor > disk.value.cursor ==>
                               && sum.loose.None? && PauseOver()
                               && sum.guarded && Settled(sum, t.ordered[t.cursor - 1])))
      && (sum.Unresolved() ==> t.halted)
      && refusals == Refusals(t.version, sum.run, sum.until) && sum.run < REFUSAL_LIMIT
      && (stored == Some(refusals) || (stored == None && sum.run == 0 && sum.until == None))
    }

    // What the round has consumed is on disk.
    ghost predicate Level()
      reads this
    {
      !blocked && !replaced ==> disk.Some? && t.cursor == disk.value.cursor
    }

    /** At every hook: what was consumed on disk is counted, only a canceled round is
        ahead of the disk, and the open observation is the round's own. */
    ghost predicate InRound()
      reads this
    {
      && Underway()
      && (!blocked ==> sum.loose.None?)
      && (!canceled ==> Level())
      && (!blocked && Level() ==> sum.open == Observed(observed, refused))
    }

    // The application of the candidate consumed last succeeded in this round.
    ghost predicate JustApplied(id: NodeId)
      reads this
    {
      && sum.succeeded == Some(id) && !sum.Unresolved()
      && 0 < t.cursor <= |t.ordered| && t.ordered[t.cursor - 1] == id
    }

    ghost predicate PauseOver()
      reads this
    {
      refusals.until.Some? ==> refusals.until.value <= now
    }

    /** A new process, started over whatever a crash left behind. */
    constructor Boot(past: History, clock: int, reserveSeconds: int)
      requires Safe(past)
      ensures Valid() && !blocked && entry == disk == Disk(past) && stored.None? && !replaced
      ensures history == After(past, Booted) && sum == Next(Summarize(past), Booted)
      ensures now == clock && reserve == reserveSeconds
    {
      disk, entry, blocked, stored, now := Disk(past), Disk(past), false, None, clock;
      t, refusals := NewTraversal(0, []), Refusals(0, 0, None);
      offset, window, observed, refused, canceled, checksLeft := 0, 0, false, false, false, 0;
      replaced, reserve := false, reserveSeconds;
      origin, history := past, After(past, Booted);
      sum := Summarize(After(past, Booted));
      SafeIsCoherent(past);
    }

    // An event happens: the only way the history grows.
    method Note(e: Event)
      requires Recorded() && StepOK(sum, e) && !e.Saved? && !e.OwnerReset?
      modifies `history, `sum
      ensures Recorded()
      ensures history == After(old(history), e) && sum == Next(old(sum), e)
    {
      history := After(history, e);
      sum := Next(sum, e);
    }

    method Elapse(m: Moment)
      modifies `now, `canceled
      ensures now == Max(old(now), m.later)
      ensures canceled == (old(canceled) || m.cancel)
    {
      now := Max(now, m.later);
      canceled := canceled || m.cancel;
    }

    // ---- saving ----

    /** The document save: refused once blocked; a failure blocks every later
        save, although the bytes may have reached the disk. */
    method PersistLocked(replacing: bool, w: Write) returns (ok: bool)
      requires Recorded()
      requires !blocked ==> SaveOK(sum, entry, replacing, now)
      modifies `disk, `blocked, `history, `sum
      ensures Recorded()
      ensures ok <==> !old(blocked) && w.Lands?
      ensures blocked == !ok && (old(blocked) ==> blocked)
      ensures old(blocked) || w.Lost? ==> disk == old(disk) && history == old(history) && sum == old(sum)
      ensures !(old(blocked) || w.Lost?) ==>
        && disk == entry && history == After(old(history), Saved(entry, replacing, now))
        && sum == Next(old(sum), Saved(entry, replacing, now))
    {
      if blocked {
        return false;
      }
      if !w.Lost? {
        disk := entry;
        history := After(history, Saved(entry, replacing, now));
        sum := Next(sum, Saved(entry, replacing, now));
      }
      ok := w.Lands?;
      blocked := !ok;
    }

    /** Saves the round's traversal. A canceled context refuses before anything is
        touched, and without blocking. */
    method PersistSearch(w: Write) returns (result: SaveResult)
      requires Underway()
      modifies `disk, `blocked, `history, `sum, `entry, `replaced
      ensures Underway()
      ensures result == if canceled then NotAttempted else if !old(blocked) && w.Lands? then Confirmed else Failed
      ensures blocked == (old(blocked) || (!canceled && !w.Lands?)) && replaced == (old(replaced) && !result.Confirmed?)
      ensures entry == if canceled then old(entry) else Some(t)
      ensures canceled || old(blocked) || w.Lost? ==>
        disk == old(disk) && history == old(history) && sum == old(sum)
      ensures !(canceled || old(blocked) || w.Lost?) ==>
        && disk == Some(t) && history == After(old(history), Saved(Some(t), old(replaced), now))
        && sum == Next(old(sum), Saved(Some(t), old(replaced), now))
    {
      if canceled {
        return NotAttempted;
      }
      var ok := WriteSearch(w);
      return if ok then Confirmed else Failed;
    }

    method WriteSearch(w: Write) returns (ok: bool)
      requires Underway()
      modifies `disk, `blocked, `history, `sum, `entry, `replaced
      ensures Underway()
      ensures ok <==> !old(blocked) && w.Lands?
      ensures blocked == !ok && replaced == (old(replaced) && !ok) && entry == Some(t)
      ensures old(blocked) || w.Lost? ==> disk == old(disk) && history == old(history) && sum == old(sum)
      ensures !(old(blocked) || w.Lost?) ==>
        && disk == Some(t) && history == After(old(history), Saved(Some(t), old(replaced), now))
        && sum == Next(old(sum), Saved(Some(t), old(replaced), now))
    {
      entry := Some(t);
      if blocked {
        return false;
      }
      MaySave();
      ok := PersistLocked(replaced, w);
      if ok {
        replaced := false;
      }
    }

    lemma MaySave()
      requires Underway() && !blocked
      ensures SaveOK(sum, Some(t), replaced, now)
    {
      SafeIsCoherent(history);
    }

    /** The same for a save that does not move the cursor, or is refused. */
    method SaveInPlace(w: Write) returns (result: SaveResult)
      requires InRound() && (Level() || canceled)
      modifies `disk, `blocked, `history, `sum, `entry, `replaced
      ensures InRound()
      ensures result == if canceled then NotAttempted else if !old(blocked) && w.Lands? then Confirmed else Failed
      ensures result.Confirmed? ==>
        && Level() && !blocked && disk == entry == Some(t) && !replaced
        && history == After(old(history), Saved(Some(t), old(replaced), now))
        && sum == Next(old(sum), Saved(Some(t), old(replaced), now))
      ensures result.NotAttempted? ==>
        && sum == old(sum) && history == old(history) && blocked == old(blocked)
        && entry == old(entry) && disk == old(disk) && replaced == old(replaced)
      ensures result.Failed? ==> blocked
      ensures history == old(history) || history == After(old(history), Saved(Some(t), old(replaced), now))
      ensures !old(replaced) ==> !replaced && Carried(old(sum), sum)
      ensures SameClearance(old(sum), sum)
      ensures SameChecks(old(sum), sum)
    {
      result := PersistSearch(w);
    }

    // ---- the hooks ----

    // Nothing is in the way of the search.
    ghost predicate Open()
      reads this
    {
      !canceled && !blocked && PauseOver()
    }

    /** How the search may go on: right behind a guard that passed, refused for a pause only
        inside one. */
    ghost predicate EndsRight(err: Error)
      reads this
    {
      && !err.BadRequest?
      && (err.NoError? ==> history.After? && history.event.GuardPassed?)
      && (err.RefusalPause? ==> !PauseOver())
    }

    /** The round's authority: context, settings, consent, disk image, network. */
    method RoundGuard(r: Reads) returns (err: Error)
      modifies `now, `canceled, `blocked
      ensures now == Max(old(now), r.moment.later) && canceled == (old(canceled) || r.moment.cancel)
      ensures err == if canceled || r.changed || old(blocked) || r.unreadable then Stopped else NoError
      ensures blocked == (old(blocked) || (!canceled && !r.changed && r.unreadable))
    {
      Elapse(r.moment);
      if canceled || r.changed || blocked {
        return Stopped;
      }
      if r.unreadable {
        blocked := true;
        return Stopped;
      }
      return NoError;
    }

    method Guard(r: Reads) returns (err: Error)
      requires InRound()
      modifies `now, `canceled, `blocked, `history, `sum
      ensures InRound()
      ensures now == Max(old(now), r.moment.later) && canceled == (old(canceled) || r.moment.cancel)
      ensures blocked == (old(blocked) || (!canceled && !r.changed && r.unreadable))
      ensures err.NoError? <==> !canceled && !r.changed && !old(blocked) && !r.unreadable && PauseOver()
      ensures err.NoError? || err.Stopped? || err.RefusalPause?
      ensures err.Stopped? <==> canceled || r.changed || old(blocked) || r.unreadable
      ensures err.NoError? ==> Open() && Level()
      ensures history == if err.NoError? then After(old(history), GuardPassed(now)) else old(history)
      ensures sum == if err.NoError? then Next(old(sum), GuardPassed(now)) else old(sum)
      ensures EndsRight(err)
    {
      err := RoundGuard(r);
      if err.NoError? && refusals.until.Some? && now < refusals.until.value {
        err := RefusalPause;
      }
      if err.NoError? {
        NoteGuard();
      }
    }

    method NoteGuard()
      requires InRound() && PauseOver()
      modifies `history, `sum
      ensures InRound()
      ensures history == After(old(history), GuardPassed(now)) && sum == Next(old(sum), GuardPassed(now))
    {
      Note(GuardPassed(now));
    }

    /** Spends one check of the budget, outside a pause; the observation of the
        candidate at the cursor becomes the open one. */
    method Check(id: NodeId, found: Found, m: Moment) returns (outcome: CheckOutcome)
      requires InRound() && Level() && !observed && PauseOver()
      requires sum.checks < sum.limit && sum.guarded
      modifies `now, `canceled, `observed, `refused, `history, `sum
      ensures InRound() && Level()
      ensures outcome.Usable? <==> found.FoundPass?
      ensures outcome.DefiniteFailure? <==> found.FoundRefusal? || found.FoundFailure?
      ensures outcome.Unsupported? <==> found.FoundUnsupported?
      ensures history == After(old(history), Checked(id, found, old(now)))
      ensures sum == Next(old(sum), Checked(id, found, old(now)))
      ensures observed <==> found.FoundPass? || found.FoundRefusal? || found.FoundFailure?
      ensures refused <==> found.FoundRefusal?
      ensures now == Max(old(now), m.later) && canceled == (old(canceled) || m.cancel)
    {
      NoteCheck(id, found);
      outcome := OutcomeOf(found);
      Elapse(m);
    }

    method NoteCheck(id: NodeId, found: Found)
      requires InRound() && Level() && !observed && PauseOver()
      requires sum.checks < sum.limit && sum.guarded
      modifies `observed, `refused, `history, `sum
      ensures InRound() && Level()
      ensures history == After(old(history), Checked(id, found, now))
      ensures sum == Next(old(sum), Checked(id, found, now))
      ensures observed <==> found.FoundPass? || found.FoundRefusal? || found.FoundFailure?
      ensures refused <==> found.FoundRefusal?
    {
      Note(Checked(id, found, now));
      observed := found.FoundPass? || found.FoundRefusal? || found.FoundFailure?;
      refused := found.FoundRefusal?;
    }

    /** Reads the exact record of the last check back. */
    method VerifyRecord(id: NodeId, valid: bool) returns (err: Error)
      requires InRound() && Level()
      requires sum.checked.Some? && sum.checked.value.id == id && !ObservationOf(sum.checked.value.found).Skipped?
      modifies `history, `sum
      ensures InRound() && Level()
      ensures err == if valid then NoError else Inconclusive
      ensures history == if valid then After(old(history), RecordVerified(id)) else old(history)
      ensures sum == if valid then Next(old(sum), RecordVerified(id)) else old(sum)
    {
      if !valid {
        return Inconclusive;
      }
      Note(RecordVerified(id));
      return NoError;
    }

    // The ring position after the cursor's: 0 behind the end of the window.
    predicate IsNext(next: int)
      reads this
    {
      next == if t.cursor - offset + 1 == window then 0 else t.cursor - offset + 1
    }

    // The run of refusals with what the next cursor write consumes.
    function NextRun(): Refusals
      reads this
    {
      Counted(refusals, observed, refused)
    }

    // The cursor, exhaustion and recheck time of the write, and the count it makes.
    method MoveCursor(next: int) returns (counted: Refusals)
      requires ValidTraversal(t) && 0 <= offset <= t.cursor < offset + window <= |t.ordered|
      requires IsNext(next)
      modifies `t, `observed, `refused
      ensures !observed && !refused
      ensures t == CursorWritten(old(t), old(t).cursor + 1, old(NextRun()).count >= REFUSAL_LIMIT, now + reserve)
      ensures counted == AfterPause(old(NextRun()), t.retryAt)
      ensures Continues(old(t), t)
    {
      ghost var before, pausing := t, NextRun().count >= REFUSAL_LIMIT;
      var position := next;
      if position == 0 {
        position := window;
      }
      var cursor := offset + position;
      t := t.(cursor := cursor, exhausted := cursor == |t.ordered|);
      if t.exhausted {
        t := t.(retryAt := Some(now + reserve));
      }
      counted := refusals;
      if observed {
        counted := Observe(counted, refused);
      }
      observed, refused := false, false;
      if counted.count >= REFUSAL_LIMIT {
        if !t.exhausted {
          t := t.(retryAt := Some(now + reserve));
        }
        counted := Refusals(counted.version, 0, t.retryAt);
      }
      CursorWrittenContinues(before, pausing, now + reserve);
    }

    method MoveInRound(next: int) returns (counted: Refusals)
      requires InRound() && Level() && !replaced && PauseOver()
      requires 0 <= offset <= t.cursor < offset + window <= |t.ordered|
      requires IsNext(next)
      requires sum.guarded && Settled(sum, t.ordered[t.cursor])
      modifies `t, `observed, `refused
      ensures Underway() && !observed && !refused
      ensures !blocked ==> disk.Some? && t.cursor == disk.value.cursor + 1
      ensures t == CursorWritten(old(t), old(t).cursor + 1, old(NextRun()).count >= REFUSAL_LIMIT, now + reserve)
      ensures counted == AfterPause(old(NextRun()), t.retryAt)
      ensures old(NextRun()) == refusals.(count := RunAfter(Observed(old(observed), old(refused))))
      ensures old(NextRun()).count >= REFUSAL_LIMIT ==> t.retryAt.Some?
    {
      ghost var before := t;
      counted := MoveCursor(next);
      if !blocked {
        ContinuesIsTransitive(disk.value, before, t);
      }
    }

    // A confirmed cursor write is counted, and may start a pause.
    method Count(counted: Refusals, observation: Observation)
      requires Underway() && PauseOver() && sum.loose == Some(observation) && sum.open.Skipped?
      requires !blocked && !replaced && disk == Some(t) && !observed
      requires RunAfter(observation) < REFUSAL_LIMIT || t.retryAt.Some?
      requires counted == AfterPause(refusals.(count := RunAfter(observation)), t.retryAt)
      modifies `refusals, `stored, `history, `sum
      ensures InRound()
      ensures refusals == counted
      ensures Carried(old(sum), sum) && sum.checked == old(sum).checked
      ensures history == if old(RunAfter(observation)) < REFUSAL_LIMIT
        then After(old(history), CursorCounted(observation, now))
        else After(After(old(history), CursorCounted(observation, now)), SearchPaused(t.retryAt.value))
    {
      NoteCount(observation);
      refusals := counted;
      stored := Some(refusals);
    }

    method NoteCount(observation: Observation)
      requires Underway() && PauseOver() && sum.loose == Some(observation)
      requires RunAfter(observation) < REFUSAL_LIMIT || t.retryAt.Some?
      modifies `history, `sum
      ensures Recorded()
      ensures history == if RunAfter(observation) < REFUSAL_LIMIT
        then After(old(history), CursorCounted(observation, now))
        else After(After(old(history), CursorCounted(observation, now)), SearchPaused(t.retryAt.value))
      ensures sum == if RunAfter(observation) < REFUSAL_LIMIT
        then old(sum).(loose := None, run := RunAfter(observation))
        else old(sum).(loose := None, run := 0, until := Some(t.retryAt.value))
    {
      Note(CursorCounted(observation, now));
      if RunAfter(observation) >= REFUSAL_LIMIT {
        Note(SearchPaused(t.retryAt.value));
      }
    }

    function RunAfter(observation: Observation): nat
      reads this
    {
      if observation.Skipped? then refusals.count else if observation.ServiceRefusal? then refusals.count + 1 else 0
    }

    /** The cursor write. `next` is the library's ring position; the linear cursor
        moves by exactly one, inside the window, and never wraps. The refusal
        count moves only with a confirmed write. */
    method PersistCursor(next: int, w: Write) returns (ok: bool)
      requires InRound() && Level() && !replaced && PauseOver()
      requires 0 <= offset <= t.cursor < offset + window <= |t.ordered|
      requires IsNext(next)
      requires sum.guarded && Settled(sum, t.ordered[t.cursor])
      modifies `t, `observed, `refused, `refusals, `stored, `disk, `blocked, `history, `sum, `entry, `replaced
      ensures InRound() && !replaced && !observed
      ensures !ok ==> blocked || canceled
      ensures t == CursorWritten(old(t), old(t).cursor + 1, old(NextRun()).count >= REFUSAL_LIMIT, now + reserve)
      ensures refusals == if ok then AfterPause(old(NextRun()), t.retryAt) else old(refusals)
      ensures ok <==> !canceled && !old(blocked) && w.Lands?
      ensures ok ==> disk == Some(t) && !blocked
      ensures canceled ==>
        && sum == old(sum) && history == old(history) && disk == old(disk)
        && blocked == old(blocked) && stored == old(stored)
      ensures Carried(old(sum), sum) && sum.checked == old(sum).checked
    {
      var observation := Observed(observed, refused);
      var counted := MoveInRound(next);
      ok := SaveAndCount(counted, w, observation);
    }

    method SaveAndCount(counted: Refusals, w: Write, observation: Observation) returns (ok: bool)
      requires Underway() && !replaced && !observed && PauseOver() && (!blocked ==> sum.loose.None?)
      requires !blocked ==> disk.Some? && t.cursor == disk.value.cursor + 1 && sum.open == observation
      requires RunAfter(observation) < REFUSAL_LIMIT || t.retryAt.Some?
      requires counted == AfterPause(refusals.(count := RunAfter(observation)), t.retryAt)
      modifies `refusals, `stored, `disk, `blocked, `history, `sum, `entry, `replaced
      ensures InRound() && !replaced
      ensures !ok ==> blocked || canceled
      ensures refusals == if ok then counted else old(refusals)
      ensures ok <==> !canceled && !old(blocked) && w.Lands?
      ensures ok ==> disk == Some(t) && !blocked
      ensures canceled ==>
        && sum == old(sum) && history == old(history) && disk == old(disk)
        && blocked == old(blocked) && stored == old(stored)
      ensures Carried(old(sum), sum) && sum.checked == old(sum).checked
    {
      ok := SaveConsumption(w, observation);
      if ok {
        Count(counted, observation);
      }
    }

    method SaveConsumption(w: Write, ghost observation: Observation) returns (ok: bool)
      requires Underway() && !replaced && !observed && (!blocked ==> sum.loose.None?)
      requires !blocked ==> disk.Some? && t.cursor == disk.value.cursor + 1 && sum.open == observation
      modifies `disk, `blocked, `history, `sum, `entry, `replaced
      ensures Underway() && !replaced
      ensures ok <==> !canceled && !old(blocked) && w.Lands?
      ensures ok ==> sum.loose == Some(observation) && sum.open.Skipped? && !blocked && disk == Some(t)
      ensures !ok ==> InRound()
      ensures !ok ==> blocked || canceled
      ensures canceled ==> sum == old(sum) && history == old(history) && disk == old(disk) && blocked == old(blocked)
      ensures Carried(old(sum), sum) && sum.checked == old(sum).checked
    {
      var result := PersistSearch(w);
      ok := result.Confirmed?;
    }

    // The candidate consumed last may be applied: it passed the last check, its record
    // was read back, and a guard passed behind that.
    ghost predicate IsCleared(id: NodeId)
      reads this
    {
      && 0 < t.cursor <= |t.ordered| && t.ordered[t.cursor - 1] == id && id !in sum.tried
      && sum.checked == Some(LastCheck(id, FoundPass)) && sum.confirmed && sum.guarded
    }

    // A switch is affordable, and the halt will be confirmed on disk.
    predicate Starts(a: Application)
      reads this
    {
      a.affordable && !canceled && !a.starting.cancel && !blocked && a.latch.Lands?
    }

    /** Spends switch budget, saves the halted latch, and only then applies: exactly when
        a switch is affordable and the halt is confirmed on disk. */
    method Apply(id: NodeId, a: Application) returns (err: Error)
      requires InRound() && !replaced && !t.halted && !observed
      requires IsCleared(id)
      modifies `t, `now, `canceled, `disk, `blocked, `history, `sum, `entry, `replaced
      ensures InRound() && !replaced
      ensures t == old(t).(halted := a.affordable)
      ensures !a.affordable ==> err.OverBudget? && sum == old(sum) && history == old(history)
      ensures a.affordable ==> !err.OverBudget?
      ensures if old(Starts(a)) then id in sum.tried else sum.tried == old(sum.tried) && !sum.Unresolved()
      ensures err.NoError? <==> old(Starts(a)) && a.committed && a.record.Lands?
      ensures err.ApplyFailed? <==> old(Starts(a)) && !a.committed
      ensures sum.succeeded == if err.NoError? then Some(id) else old(sum).succeeded
      ensures err.NoError? ==> !sum.Unresolved()
      ensures err.ApplyFailed? ==> sum.attempt == Some(id)
      ensures SameChecks(old(sum), sum)
      ensures old(Open()) && a.Quiet(old(now)) ==> Open() && now == old(now)
      ensures !err.BadRequest? && !err.RefusalPause?
    {
      if !a.affordable {
        return OverBudget;
      }
      err := ApplyAffordable(id, a);
    }

    method ApplyAffordable(id: NodeId, a: Application) returns (err: Error)
      requires InRound() && !replaced && !t.halted && !observed
      requires IsCleared(id) && a.affordable
      modifies `t, `now, `canceled, `disk, `blocked, `history, `sum, `entry, `replaced
      ensures InRound() && !replaced
      ensures t == old(t).(halted := true) && !err.OverBudget?
      ensures if old(Starts(a)) then id in sum.tried else sum.tried == old(sum.tried) && !sum.Unresolved()
      ensures err.NoError? <==> old(Starts(a)) && a.committed && a.record.Lands?
      ensures err.ApplyFailed? <==> old(Starts(a)) && !a.committed
      ensures sum.succeeded == if err.NoError? then Some(id) else old(sum).succeeded
      ensures err.NoError? ==> !sum.Unresolved()
      ensures err.ApplyFailed? ==> sum.attempt == Some(id)
      ensures SameChecks(old(sum), sum)
      ensures old(Open()) && a.Quiet(old(now)) ==> Open() && now == old(now)
      ensures !err.BadRequest? && !err.RefusalPause?
    {
      err := Latch(a.starting, a.latch);
      if err.NoError? {
        err := ApplyLatched(id, a);
      }
    }

    // The halt is on disk.
    method ApplyLatched(id: NodeId, a: Application) returns (err: Error)
      requires InRound() && Level() && !replaced && !blocked && disk == Some(t) && t.halted && !sum.Unresolved()
      requires IsCleared(id) && !observed
      modifies `now, `canceled, `disk, `blocked, `history, `sum, `entry
      ensures InRound() && id in sum.tried
      ensures now == Max(old(now), a.running.later) && canceled == (old(canceled) || a.running.cancel)
      ensures err == if !a.committed then ApplyFailed else if a.record.Lands? then NoError else Stopped
      ensures sum.succeeded == if err.NoError? then Some(id) else old(sum).succeeded
      ensures err.NoError? ==> !sum.Unresolved()
      ensures err.ApplyFailed? ==> sum.attempt == Some(id)
      ensures !err.Stopped? ==> !blocked
      ensures SameChecks(old(sum), sum)
    {
      StartApplication(id);
      err := Commit(a.running, a.committed, a.record);
    }

    // The write-ahead: halted on disk, or nothing starts.
    method Latch(m: Moment, w: Write) returns (err: Error)
      requires InRound() && !replaced && !t.halted
      modifies `t, `now, `canceled, `disk, `blocked, `history, `sum, `entry, `replaced
      ensures InRound() && !replaced
      ensures t == old(t).(halted := true)
      ensures now == Max(old(now), m.later) && canceled == (old(canceled) || m.cancel)
      ensures Carried(old(sum), sum) && SameClearance(old(sum), sum)
      ensures err == if canceled then Stopped else if !old(blocked) && w.Lands? then NoError else NotPersisted
      ensures err.NoError? ==> Level() && !blocked && disk == Some(t)
    {
      Elapse(m);
      t := t.(halted := true);
      var result := SaveInPlace(w);
      if !result.Confirmed? {
        return if result.Failed? then NotPersisted else Stopped;
      }
      return NoError;
    }

    method StartApplication(id: NodeId)
      requires InRound() && Level() && !replaced && !blocked && disk == Some(t) && t.halted && !sum.Unresolved()
      requires IsCleared(id) && !observed
      modifies `history, `sum
      ensures InRound() && Level() && sum.attempt == Some(id) && id in sum.tried
      ensures history == After(old(history), ApplyStarted(id)) && sum.succeeded == old(sum).succeeded
      ensures SameChecks(old(sum), sum)
    {
      Note(ApplyStarted(id));
    }

    /** The application itself: it fails, or it commits and its record is saved. */
    method Commit(m: Moment, committed: bool, record: Write) returns (err: Error)
      requires InRound() && Level() && !replaced && t.halted && sum.Unresolved()
      modifies `now, `canceled, `disk, `blocked, `history, `sum, `entry
      ensures InRound()
      ensures now == Max(old(now), m.later) && canceled == (old(canceled) || m.cancel)
      ensures err == if !committed then ApplyFailed else if !old(blocked) && record.Lands? then NoError else Stopped
      ensures err.NoError? ==> !sum.Unresolved() && !blocked
      ensures sum.succeeded == if err.NoError? then old(sum).attempt else old(sum).succeeded
      ensures err.ApplyFailed? ==> sum == old(sum) && history == old(history) && blocked == old(blocked)
      ensures !err.NoError? ==> sum.attempt == old(sum.attempt)
      ensures sum.tried == old(sum.tried)
      ensures SameChecks(old(sum), sum)
    {
      Elapse(m);
      if !committed {
        return ApplyFailed;
      }
      var recorded := RecordRoute(record);
      if !recorded {
        return Stopped;
      }
      NoteSuccess();
      return NoError;
    }

    method NoteSuccess()
      requires InRound() && Level() && sum.Unresolved()
      modifies `history, `sum
      ensures InRound()
      ensures history == After(old(history), ApplySucceeded) && sum == Next(old(sum), ApplySucceeded)
    {
      Note(ApplySucceeded);
    }

    method RecordRoute(w: Write) returns (recorded: bool)
      requires InRound() && Level() && !replaced
      modifies `disk, `blocked, `history, `sum, `entry
      ensures InRound() && Level() && Carried(old(sum), sum) && SameClearance(old(sum), sum)
      ensures recorded <==> !old(blocked) && w.Lands?
      ensures blocked == !recorded
    {
      entry := Some(t);
      recorded := PersistLocked(false, w);
    }

    // The application of the candidate failed, nothing has changed around the round,
    // and there is an accepted receipt of its rollback.
    ghost predicate MayLift(id: NodeId, applyErr: Error, rb: Rollback)
      reads this
    {
      && applyErr.ApplyFailed? && !canceled && !blocked
      && !rb.authority.moment.cancel && !rb.authority.changed && !rb.authority.unreadable
      && Accepted(Receipt(id, rb.failure, rb.reported))
    }

    /** Lifts the latch only over an accepted verified-rollback receipt; otherwise
        nothing changes, and the halt stays. */
    method ContinueAfterRollback(id: NodeId, applyErr: Error, rb: Rollback) returns (verified: bool, err: Error)
      requires InRound() && !replaced
      requires applyErr.ApplyFailed? ==> t.halted && sum.attempt == Some(id)
      modifies `t, `now, `canceled, `disk, `blocked, `history, `sum, `entry, `replaced
      ensures InRound() && !replaced
      ensures old(MayLift(id, applyErr, rb)) ==>
        && t == old(t).(halted := false) && !sum.Unresolved()
        && IsPrefix(After(old(history), RollbackVerified(Receipt(id, rb.failure, rb.reported))), history)
      ensures !old(MayLift(id, applyErr, rb)) ==>
        && !verified && err.NoError? && t == old(t) && sum == old(sum) && history == old(history)
        && disk == old(disk) && entry == old(entry)
      ensures verified <==> old(MayLift(id, applyErr, rb)) && !rb.lifting.cancel && rb.w.Lands?
      ensures verified ==> (err.NoError? <==> !rb.after.moment.cancel && !rb.after.changed && !rb.after.unreadable)
      ensures verified && err.NoError? ==> !canceled && !blocked
      ensures sum.tried == old(sum.tried)
      ensures sum.succeeded == old(sum).succeeded
      ensures SameChecks(old(sum), sum)
      ensures old(Open()) && rb.Quiet(old(now)) ==> Open() && now == old(now)
      ensures !err.BadRequest? && !err.RefusalPause?
    {
      var accepted := CheckRollback(id, applyErr, rb);
      if !accepted {
        return false, NoError;
      }
      var saved := Unlatch(Receipt(id, rb.failure, rb.reported), rb.lifting, rb.w);
      if !saved {
        return false, NotPersisted;
      }
      err := RoundGuard(rb.after);
      return true, err;
    }

    method CheckRollback(id: NodeId, applyErr: Error, rb: Rollback) returns (ok: bool)
      requires InRound()
      modifies `now, `canceled, `blocked
      ensures InRound()
      ensures ok <==> old(MayLift(id, applyErr, rb))
      ensures ok ==> !canceled && !blocked && applyErr.ApplyFailed? && Accepted(Receipt(id, rb.failure, rb.reported))
      ensures old(Open()) && rb.authority.Quiet(old(now)) ==> Open() && now == old(now)
    {
      if !applyErr.ApplyFailed? {
        return false;
      }
      var err := RoundGuard(rb.authority);
      ok := RollbackReceipts.Examine(Receipt(id, rb.failure, rb.reported));
      ok := ok && err.NoError?;
    }

    method Unlatch(receipt: Receipt, m: Moment, w: Write) returns (saved: bool)
      requires InRound() && !replaced && !blocked && !canceled && t.halted
      requires sum.attempt == Some(receipt.node) && Accepted(receipt)
      modifies `t, `now, `canceled, `disk, `blocked, `history, `sum, `entry, `replaced
      ensures InRound() && !replaced && !sum.Unresolved()
      ensures t == old(t).(halted := false)
      ensures IsPrefix(After(old(history), RollbackVerified(receipt)), history)
      ensures now == Max(old(now), m.later) && canceled == m.cancel
      ensures saved <==> !m.cancel && w.Lands?
      ensures saved ==> !blocked && disk == Some(t)
      ensures sum.tried == old(sum.tried)
      ensures sum.succeeded == old(sum).succeeded
      ensures SameChecks(old(sum), sum)
    {
      Lift(receipt);
      Elapse(m);
      var result := SaveInPlace(w);
      saved := result.Confirmed?;
    }

    method Lift(receipt: Receipt)
      requires InRound() && !replaced && t.halted
      requires sum.attempt == Some(receipt.node) && Accepted(receipt)
      modifies `t, `history, `sum
      ensures InRound() && t == old(t).(halted := false)
      ensures !canceled ==> Level()
      ensures history == After(old(history), RollbackVerified(receipt))
      ensures sum == Next(old(sum), RollbackVerified(receipt))
    {
      Note(RollbackVerified(receipt));
      t := t.(halted := false);
    }

    method Advance(next: int, step: CursorStep) returns (err: Error)
      requires InRound() && !replaced
      requires 0 <= offset <= t.cursor < offset + window <= |t.ordered|
      requires IsNext(next)
      requires Settled(sum, t.ordered[t.cursor])
      modifies `t, `observed, `refused, `refusals, `stored, `disk, `blocked, `history, `sum, `entry, `replaced,
        `now, `canceled
      ensures InRound() && !replaced
      ensures OneFurther(old(t), t) && t.halted == old(t.halted)
      ensures err.NoError? ==> t.cursor == old(t.cursor) + 1 && !observed && Open()
      ensures Carried(old(sum), sum) && sum.checked == old(sum).checked
      ensures old(Open()) && step.Quiet(old(now)) ==>
        && now == old(now) && (err.NoError? || err.RefusalPause?)
        && (err.RefusalPause? ==> old(observed && refused) && old(refusals.count) + 1 == REFUSAL_LIMIT)
      ensures EndsRight(err)
    {
      err := Guard(step.before);
      if !err.NoError? {
        return;
      }
      var ok := WriteCursor(next, step);
      if !ok {
        return NotPersisted;
      }
      err := Guard(step.after);
    }

    method WriteCursor(next: int, step: CursorStep) returns (ok: bool)
      requires InRound() && Level() && !replaced && Open()
      requires 0 <= offset <= t.cursor < offset + window <= |t.ordered|
      requires IsNext(next)
      requires sum.guarded && Settled(sum, t.ordered[t.cursor])
      modifies `t, `observed, `refused, `refusals, `stored, `disk, `blocked, `history, `sum, `entry, `replaced,
        `now, `canceled
      ensures InRound() && !replaced && !observed
      ensures now == Max(old(now), step.saving.later) && canceled == step.saving.cancel
      ensures ok <==> !canceled && step.w.Lands?
      ensures ok ==> !blocked
      ensures OneFurther(old(t), t) && t.halted == old(t.halted) && t.cursor == old(t.cursor) + 1
      ensures Carried(old(sum), sum) && sum.checked == old(sum).checked
      ensures ok ==> PauseOver() || (old(observed && refused) && old(refusals.count) + 1 == REFUSAL_LIMIT)
    {
      Elapse(step.saving);
      ok := PersistCursor(next, step.w);
    }

    // Tries to apply the candidate just consumed; without an error and without
    // success it was rolled back with a verified receipt.
    method ApplyConsumed(id: NodeId, trial: Trial) returns (err: Error, done: bool)
      requires InRound() && !replaced && !t.halted && !observed
      requires IsCleared(id)
      modifies `t, `now, `canceled, `disk, `blocked, `history, `sum, `entry, `replaced
      ensures InRound() && !replaced
      ensures t == old(t).(halted := t.halted)
      ensures done ==> trial.application.committed && id in sum.tried && !sum.Unresolved()
      ensures sum.succeeded == if done then Some(id) else old(sum).succeeded
      ensures !done && err.NoError? ==>
        && !t.halted && !trial.application.committed && id in sum.tried
        && Accepted(Receipt(id, trial.rollback.failure, trial.rollback.reported))
      ensures SameChecks(old(sum), sum)
      ensures old(Open()) && trial.Quiet(old(now)) ==>
        && now == old(now)
        && (!trial.application.affordable ==> !done && err.OverBudget?)
        && (trial.application.affordable && trial.application.committed ==> done && err.NoError?)
        && (trial.application.affordable && !trial.application.committed ==>
              !done && (err.NoError? || err.ApplyFailed?) &&
              (err.NoError? <==> Accepted(Receipt(id, trial.rollback.failure, trial.rollback.reported))))
      ensures EndsRight(err)
    {
      err := Apply(id, trial.application);
      if err.NoError? {
        err := Guard(trial.after);
        return err, true;
      }
      err := ContinueSearch(id, err, trial);
      return err, false;
    }

    // Behind an application that failed.
    method ContinueSearch(id: NodeId, applyErr: Error, trial: Trial) returns (err: Error)
      requires InRound() && !replaced && !applyErr.NoError? && !applyErr.BadRequest? && !applyErr.RefusalPause?
      requires applyErr.ApplyFailed? ==> t.halted && sum.attempt == Some(id)
      modifies `t, `now, `canceled, `disk, `blocked, `history, `sum, `entry, `replaced
      ensures InRound() && !replaced
      ensures t == old(t).(halted := t.halted)
      ensures err.NoError? ==>
        && applyErr.ApplyFailed? && !t.halted
        && Accepted(Receipt(id, trial.rollback.failure, trial.rollback.reported))
      ensures sum.tried == old(sum).tried && sum.succeeded == old(sum).succeeded && SameChecks(old(sum), sum)
      ensures old(Open()) && trial.Quiet(old(now)) ==>
        && now == old(now) && (err.NoError? || err == applyErr)
        && (err.NoError? <==>
              applyErr.ApplyFailed? && Accepted(Receipt(id, trial.rollback.failure, trial.rollback.reported)))
      ensures EndsRight(err)
      ensures err.NoError? ==>
        var after := trial.rollback.after; !after.moment.cancel && !after.changed && !after.unreadable
    {
      err := Guard(trial.after);
      if !err.NoError? {
        return;
      }
      var verified;
      verified, err := ContinueAfterRollback(id, applyErr, trial.rollback);
      if !err.NoError? || !verified {
        return applyErr;
      }
      err := Guard(trial.last);
    }

    lemma CursorIsUntried()
      requires InRound() && !replaced && !blocked && t.cursor < |t.ordered|
      ensures t.ordered[t.cursor] !in sum.tried
    {
      SafeIsCoherent(history);
      PendingIsUntried(sum, t);
    }

    // The candidate at the cursor is the current one, or not eligible.
    predicate Skips(current: Option<NodeId>, turn: Turn)
      requires 0 <= t.cursor < |t.ordered|
      reads this
    {
      Some(t.ordered[t.cursor]) == current || !turn.eligible
    }

    // It is checked, and passes.
    predicate Tries(current: Option<NodeId>, turn: Turn)
      requires 0 <= t.cursor < |t.ordered|
      reads this
    {
      !Skips(current, turn) && turn.found.FoundPass?
    }

    // The last check is of this candidate, and passed.
    ghost predicate PassedNow(id: NodeId)
      reads this
    {
      sum.checked == Some(LastCheck(id, FoundPass))
    }

    /** The candidate at the cursor is skipped, or checked and consumed; it is usable
        exactly when it was checked and passed. */
    method Consume(current: Option<NodeId>, next: int, turn: Turn) returns (err: Error, usable: bool, checks: int)
      requires InRound() && !replaced && !t.halted && !observed
      requires 0 <= offset <= t.cursor < offset + window <= |t.ordered|
      requires IsNext(next)
      requires sum.checks < sum.limit
      modifies `t, `observed, `refused, `refusals, `stored, `disk, `blocked, `history, `sum, `entry, `replaced,
        `now, `canceled
      ensures InRound() && !replaced && !t.halted
      ensures OneFurther(old(t), t)
      ensures 0 <= checks <= 1
      ensures SameApplications(old(sum), sum)
      ensures sum.checks == old(sum).checks + checks && sum.limit == old(sum).limit
      ensures err.NoError? ==> t.cursor == old(t.cursor) + 1 && old(t.ordered[t.cursor]) !in sum.tried
      ensures err.NoError? ==> !observed && Open() && checks == if old(Skips(current, turn)) then 0 else 1
      ensures err.NoError? ==> (usable <==> old(Tries(current, turn)))
      ensures err.NoError? && usable ==> PassedNow(old(t.ordered[t.cursor]))
      ensures old(Open()) && turn.Quiet(old(now)) ==>
        now == old(now) && ConsumesQuietly(turn.found, old(Skips(current, turn)), old(refusals.count), err)
      ensures EndsRight(err)
    {
      err := Guard(turn.start);
      usable, checks := false, 0;
      if err.NoError? {
        err, usable, checks := SkipOrCheck(current, next, turn);
      }
    }

    method SkipOrCheck(current: Option<NodeId>, next: int, turn: Turn)
      returns (err: Error, usable: bool, checks: int)
      requires InRound() && !replaced && !t.halted && !observed && Level() && Open() && sum.guarded
      requires 0 <= offset <= t.cursor < offset + window <= |t.ordered|
      requires IsNext(next)
      requires sum.checks < sum.limit
      modifies `t, `observed, `refused, `refusals, `stored, `disk, `blocked, `history, `sum, `entry, `replaced,
        `now, `canceled
      ensures InRound() && !replaced && !t.halted
      ensures OneFurther(old(t), t)
      ensures 0 <= checks <= 1
      ensures SameApplications(old(sum), sum)
      ensures sum.checks == old(sum).checks + checks && sum.limit == old(sum).limit
      ensures err.NoError? ==> t.cursor == old(t.cursor) + 1 && old(t.ordered[t.cursor]) !in sum.tried
      ensures err.NoError? ==> !observed && Open() && checks == if old(Skips(current, turn)) then 0 else 1
      ensures err.NoError? ==> (usable <==> old(Tries(current, turn)))
      ensures err.NoError? && usable ==> PassedNow(old(t.ordered[t.cursor]))
      ensures turn.Quiet(old(now)) ==>
        now == old(now) && ConsumesQuietly(turn.found, old(Skips(current, turn)), old(refusals.count), err)
      ensures EndsRight(err)
    {
      CursorIsUntried();
      usable, checks := false, 0;
      if turn.unreadable {
        err := Stopped;
      } else if Skips(current, turn) {
        err := Advance(next, turn.step);
      } else {
        err, usable := CheckAndAdvance(t.ordered[t.cursor], next, turn);
        checks := 1;
      }
    }

    method CheckAndAdvance(id: NodeId, next: int, turn: Turn) returns (err: Error, usable: bool)
      requires InRound() && !replaced && !t.halted && !observed && Level() && Open() && sum.guarded
      requires 0 <= offset <= t.cursor < offset + window <= |t.ordered| && t.ordered[t.cursor] == id
      requires IsNext(next)
      requires sum.checks < sum.limit
      modifies `t, `observed, `refused, `refusals, `stored, `disk, `blocked, `history, `sum, `entry, `replaced,
        `now, `canceled
      ensures InRound() && !replaced && !t.halted
      ensures OneFurther(old(t), t)
      ensures SameApplications(old(sum), sum) && sum.limit == old(sum).limit
      ensures sum.checks == old(sum).checks + 1
      ensures err.NoError? ==> t.cursor == old(t.cursor) + 1 && !observed && Open()
      ensures err.NoError? ==> (usable <==> turn.found.FoundPass?) && (usable ==> PassedNow(id))
      ensures turn.Quiet(old(now)) ==>
        now == old(now) && ConsumesQuietly(turn.found, false, old(refusals.count), err)
      ensures EndsRight(err)
    {
      var outcome;
      err, outcome := CheckConfirmed(id, turn);
      if err.NoError? {
        err := Advance(next, turn.step);
      }
      return err, outcome.Usable?;
    }

    method CheckConfirmed(id: NodeId, turn: Turn) returns (err: Error, outcome: CheckOutcome)
      requires InRound() && Level() && !observed && Open() && sum.guarded
      requires sum.checks < sum.limit
      modifies `now, `canceled, `blocked, `observed, `refused, `history, `sum
      ensures InRound() && SameApplications(old(sum), sum) && sum.limit == old(sum).limit
      ensures sum.checks == old(sum).checks + 1
      ensures outcome.Usable? <==> turn.found.FoundPass?
      ensures sum.checked == Some(LastCheck(id, turn.found)) && (observed && refused ==> turn.found.FoundRefusal?)
      ensures err.NoError? ==> Open() && Level() && Settled(sum, id)
      ensures turn.Quiet(old(now)) ==>
        && now == old(now)
        && err == if turn.found.FoundError? || turn.found.FoundUnclear? then Inconclusive else NoError
      ensures !err.BadRequest? && (err.RefusalPause? ==> !PauseOver())
    {
      outcome := Check(id, turn.found, turn.checking);
      if outcome.CheckError? {
        return Inconclusive, outcome;
      }
      err := ConfirmCheck(id, outcome, turn);
    }

    // A guard, and the record of what was observed.
    method ConfirmCheck(id: NodeId, outcome: CheckOutcome, turn: Turn) returns (err: Error)
      requires InRound() && Level() && sum.checked == Some(LastCheck(id, turn.found))
      requires sum.open == ObservationOf(turn.found)
      requires outcome.Unsupported? ==> turn.found.FoundUnsupported?
      requires !outcome.Unsupported? ==> !ObservationOf(turn.found).Skipped?
      modifies `now, `canceled, `blocked, `history, `sum
      ensures InRound() && Carried(old(sum), sum) && sum.checked == old(sum).checked
      ensures err.NoError? ==> Open() && Level() && Settled(sum, id)
      ensures old(Open()) && turn.checked.Quiet(old(now)) && turn.recorded ==>
        err.NoError? && now == old(now)
      ensures !err.BadRequest? && (err.RefusalPause? ==> !PauseOver())
    {
      err := Guard(turn.checked);
      if err.NoError? && !outcome.Unsupported? {
        err := VerifyRecord(id, turn.recorded);
      }
    }

    /** One turn of the library loop: without an error the candidate is applied if and only
        if it was checked and passed; it is reported exactly when that committed. */
    method Examine(current: Option<NodeId>, next: int, turn: Turn)
      returns (err: Error, applied: Option<NodeId>, checks: int)
      requires InRound() && !replaced && !t.halted && !observed
      requires 0 <= offset <= t.cursor < offset + window <= |t.ordered|
      requires IsNext(next)
      requires sum.checks < sum.limit
      modifies `t, `observed, `refused, `refusals, `stored, `disk, `blocked, `history, `sum, `entry, `replaced,
        `now, `canceled
      ensures InRound() && !replaced
      ensures OneFurther(old(t), t)
      ensures err.NoError? || applied.Some? ==> t.cursor == old(t.cursor) + 1
      ensures applied.None? && err.NoError? ==> !t.halted && !observed
      ensures applied.Some? ==> JustApplied(applied.value)
      ensures sum.succeeded == if applied.Some? then applied else old(sum).succeeded
      ensures 0 <= checks <= 1
      ensures sum.checks == old(sum.checks) + checks && sum.limit == old(sum.limit)
      ensures err.NoError? ==> (old(t.ordered[t.cursor]) in sum.tried <==> old(Tries(current, turn)))
      ensures err.NoError? ==> (applied.Some? <==> old(Tries(current, turn)) && turn.trial.application.committed)
      ensures applied.Some? ==> old(Tries(current, turn)) && turn.trial.application.committed
      ensures old(Open() && Tries(current, turn)) && turn.Quiet(old(now)) && turn.Commits() ==> err.NoError?
      ensures EndsRight(err)
    {
      var usable;
      err, usable, checks := Consume(current, next, turn);
      applied := None;
      if err.NoError? && usable {
        err, applied := ApplyLast(turn);
      }
    }

    // The candidate consumed last was usable.
    method ApplyLast(turn: Turn) returns (err: Error, applied: Option<NodeId>)
      requires InRound() && !replaced && !t.halted && !observed
      requires 0 < t.cursor && t.ordered[t.cursor - 1] !in sum.tried && PassedNow(t.ordered[t.cursor - 1])
      modifies `t, `now, `canceled, `disk, `blocked, `history, `sum, `entry, `replaced
      ensures InRound() && !replaced
      ensures t == old(t).(halted := t.halted)
      ensures applied.None? && err.NoError? ==> !t.halted && !observed
      ensures sum.succeeded == if applied.Some? then applied else old(sum).succeeded
      ensures applied.Some? ==> JustApplied(applied.value) && turn.trial.application.committed
      ensures err.NoError? ==> t.ordered[t.cursor - 1] in sum.tried
      ensures err.NoError? ==> (applied.Some? <==> turn.trial.application.committed)
      ensures SameChecks(old(sum), sum)
      ensures old(Open()) && turn.Quiet(old(now)) && turn.Commits() ==> err.NoError?
      ensures EndsRight(err)
    {
      var id := t.ordered[t.cursor - 1];
      var done;
      err, done := ApplyIfStillUsable(id, turn);
      applied := if done then Some(id) else None;
    }

    // The record is read again after the cursor was written, and the guard passed again.
    method ApplyIfStillUsable(id: NodeId, turn: Turn) returns (err: Error, done: bool)
      requires InRound() && !replaced && !t.halted && !observed
      requires 0 < t.cursor && t.ordered[t.cursor - 1] == id && id !in sum.tried && PassedNow(id)
      modifies `t, `now, `canceled, `disk, `blocked, `history, `sum, `entry, `replaced
      ensures InRound() && !replaced
      ensures t == old(t).(halted := t.halted)
      ensures done ==> turn.trial.application.committed && !sum.Unresolved()
      ensures sum.succeeded == if done then Some(id) else old(sum).succeeded
      ensures !done && err.NoError? ==> !t.halted && !turn.trial.application.committed
      ensures err.NoError? ==> id in sum.tried && turn.stillUsable
      ensures SameChecks(old(sum), sum)
      ensures old(Open()) && turn.Quiet(old(now)) && turn.Commits() ==> err.NoError?
      ensures EndsRight(err)
    {
      err := Clear(id, turn);
      done := false;
      if err.NoError? {
        err, done := ApplyConsumed(id, turn.trial);
      }
    }

    method Clear(id: NodeId, turn: Turn) returns (err: Error)
      requires InRound() && !replaced && !t.halted && !observed
      requires 0 < t.cursor && t.ordered[t.cursor - 1] == id && id !in sum.tried && PassedNow(id)
      modifies `now, `canceled, `blocked, `history, `sum
      ensures InRound() && Carried(old(sum), sum)
      ensures err.NoError? ==> IsCleared(id) && Open() && turn.stillUsable
      ensures old(Open()) && turn.Quiet(old(now)) ==> err.NoError? && now == old(now)
      ensures EndsRight(err)
    {
      err := Guard(turn.reread);
      if err.NoError? {
        err := VerifyRecord(id, turn.stillUsable);
      }
      if err.NoError? {
        err := Guard(turn.cleared);
      }
    }

    // The guard will pass.
    predicate Passes(r: Reads)
      reads this
    {
      && !canceled && !r.moment.cancel && !r.changed && !blocked && !r.unreadable
      && (refusals.until.Some? ==> refusals.until.value <= Max(now, r.moment.later))
    }

    /** The library loop over `t.ordered[offset..offset + window]`. Without an error
        and without an application it ends only at the end of the window or of
        the check budget. */
    method SearchFirstUsable(current: Option<NodeId>, limit: int, phase: Phase)
      returns (err: Error, applied: Option<NodeId>, checks: int)
      requires InRound() && !replaced && !t.halted && !observed
      requires 0 <= offset == t.cursor && 0 <= window && offset + window <= |t.ordered|
      requires sum.checks + limit <= sum.limit
      modifies `t, `observed, `refused, `refusals, `stored, `disk, `blocked, `history, `sum, `entry, `replaced,
        `now, `canceled
      ensures InRound() && !replaced
      ensures Further(old(t), t, window)
      ensures 0 <= checks <= Max(limit, 0)
      ensures sum.checks == old(sum.checks) + checks
      ensures sum.limit == old(sum.limit)
      ensures applied.Some? ==> JustApplied(applied.value)
      ensures sum.succeeded == if applied.Some? then applied else old(sum).succeeded
      ensures applied.None? && err.NoError? ==>
          !t.halted && !observed && (t.cursor == offset + window || checks == limit)
      ensures err.BadRequest? <==> !(1 <= limit <= 4)
      ensures !err.BadRequest? ==> EndsRight(err)
      ensures err.BadRequest? || !old(Passes(phase.first)) ==> !err.NoError? && sum == old(sum) && t == old(t)
    {
      if !(1 <= limit <= 4) {
        return BadRequest, None, 0;
      }
      err := Guard(phase.first);
      if !err.NoError? || window == 0 {
        return err, None, 0;
      }
      err, applied, checks := ExamineAll(current, limit, phase.turns);
    }

    // The loop itself, once its request and its first guard have passed.
    method ExamineAll(current: Option<NodeId>, limit: int, turns: nat -> Turn)
      returns (err: Error, applied: Option<NodeId>, checks: int)
      requires InRound() && !replaced && !t.halted && !observed
      requires 0 <= offset == t.cursor && 0 < window && offset + window <= |t.ordered|
      requires 0 < limit && sum.checks + limit <= sum.limit && EndsRight(NoError)
      modifies `t, `observed, `refused, `refusals, `stored, `disk, `blocked, `history, `sum, `entry, `replaced,
        `now, `canceled
      ensures InRound() && !replaced
      ensures Further(old(t), t, window)
      ensures 0 <= checks <= limit
      ensures sum.checks == old(sum.checks) + checks && sum.limit == old(sum.limit)
      ensures applied.Some? ==> JustApplied(applied.value)
      ensures sum.succeeded == if applied.Some? then applied else old(sum).succeeded
      ensures applied.None? && err.NoError? ==>
          !t.halted && !observed && (t.cursor == offset + window || checks == limit)
      ensures EndsRight(err)
    {
      err, applied, checks := NoError, None, 0;
      var cursor, examined := 0, 0;
      ghost var list, spent, budget, tried := t.ordered, sum.checks, sum.limit, t.standardRoutesTried;
      ghost var earlier := sum.succeeded;
      while examined < window && checks < limit
        invariant InRound() && !replaced && !t.halted && !observed
        invariant err.NoError? && applied.None? && EndsRight(NoError)
        invariant 0 <= examined <= window && 0 <= checks <= limit
        invariant t.cursor == offset + examined && t.ordered == list && t.standardRoutesTried == tried
        invariant examined < window ==> cursor == examined
        invariant sum.checks == spent + checks && sum.limit == budget && sum.succeeded == earlier
        decreases window - examined
      {
        var next := RingNext(cursor, window);
        var used;
        err, applied, used := Examine(current, next, turns(examined));
        checks := checks + used;
        if !err.NoError? || applied.Some? {
          return;
        }
        cursor, examined := next, examined + 1;
      }
    }

    // ---- the round ----

    /** The round may hand `search` back for the closing save. */
    ghost predicate Closing(search: Option<Traversal>)
      reads this
    {
      && Recorded() && ValidOption(search) && sum.run < REFUSAL_LIMIT
      && (!blocked ==> SaveOK(sum, search, replaced, now))
      && (match stored
          case None => sum.run == 0 && sum.until == None
          case Some(g) =>
            && g.count == sum.run && g.until == sum.until
            && (!blocked && search.Some? ==> g.version == search.value.version))
    }

    // What is on disk may always be saved again.
    lemma EntryMayBeSaved()
      requires Recorded() && ValidOption(entry) && (!blocked ==> entry == disk)
      ensures !blocked ==> SaveOK(sum, entry, false, now)
    {
      SafeIsCoherent(history);
    }

    /** The status publisher: it saves with a context of its own, so a canceled
        round cannot stop it, and it ignores the outcome. */
    method SaveRuntime(search: Option<Traversal>, w: Write)
      requires Closing(search)
      modifies `disk, `blocked, `history, `sum, `entry, `replaced
      ensures Valid()
      ensures entry == search && !replaced
      ensures blocked == (old(blocked) || !w.Lands?)
      ensures var landed := !old(blocked) && !w.Lost?;
        && disk == (if landed then search else old(disk))
        && history == (if landed then After(old(history), Saved(search, old(replaced), now)) else old(history))
        && sum == (if landed then Next(old(sum), Saved(search, old(replaced), now)) else old(sum))
    {
      entry := search;
      var ok := PersistLocked(replaced, w);
      replaced := false;
    }

    /** Local routes get their turn once in a traversal, after the fact is saved: exactly
        when they are allowed and have not had it, and that save is confirmed. */
    method StandardRoutes(allowed: bool, local: LocalTrial) returns (done: Option<RoundState>)
      requires InRound() && !replaced && !t.halted
      modifies `t, `disk, `blocked, `history, `sum, `entry, `replaced
      ensures InRound() && !replaced
      ensures SameChecks(old(sum), sum) && sum.succeeded == old(sum).succeeded
      ensures !allowed || old(t.standardRoutesTried) ==>
        done.None? && t == old(t) && sum == old(sum) && history == old(history) && blocked == old(blocked)
      ensures allowed && !old(t.standardRoutesTried) ==>
        var saved := !canceled && !old(blocked) && local.saving.Lands?;
        && t == old(t).(standardRoutesTried := true)
        && (saved ==> sum.localTried)
        && done == if !saved then Some(RequiresReview) else if local.settled then Some(Unsettled) else None
    {
      if !allowed || t.standardRoutesTried {
        return None;
      }
      SafeIsCoherent(history);
      t := t.(standardRoutesTried := true);
      var result := SaveInPlace(local.saving);
      if !result.Confirmed? {
        return Some(RequiresReview);
      }
      done := TryLocalRoutes(local);
    }

    method TryLocalRoutes(local: LocalTrial) returns (done: Option<RoundState>)
      requires InRound() && Level() && !replaced && !blocked && disk == Some(t) && t.standardRoutesTried
      requires !sum.localTried
      modifies `disk, `blocked, `history, `sum, `entry
      ensures InRound() && sum.localTried
      ensures SameChecks(old(sum), sum) && sum.succeeded == old(sum).succeeded
      ensures done == if local.settled then Some(Unsettled) else None
      ensures !local.applies ==> disk == old(disk) && blocked == old(blocked)
    {
      Note(LocalRoutesTried);
      if local.applies {
        entry := Some(t);
        var ok := PersistLocked(false, local.w);
      }
      return if local.settled then Some(Unsettled) else None;
    }

    method LoadRefusals(isNew: bool)
      requires Recorded() && ValidTraversal(t) && sum.run < REFUSAL_LIMIT
      requires stored.None? ==> sum.run == 0 && sum.until == None
      requires stored.Some? ==> stored.value.count == sum.run && stored.value.until == sum.until
      requires !isNew && stored.Some? ==> stored.value.version == t.version
      modifies `refusals, `stored, `history, `sum
      ensures Recorded()
      ensures refusals == Refusals(t.version, sum.run, sum.until) && sum.run < REFUSAL_LIMIT
      ensures stored == Some(refusals) || (stored == None && sum.run == 0 && sum.until == None)
      ensures history == if isNew then After(old(history), TraversalReplaced) else old(history)
      ensures sum == if isNew then Next(old(sum), TraversalReplaced) else old(sum)
    {
      if isNew {
        Note(TraversalReplaced);
        refusals := Refusals(t.version, 0, None);
        stored := Some(refusals);
      } else if stored.Some? && stored.value.version == t.version {
        refusals := stored.value;
      } else {
        refusals := Refusals(t.version, 0, None);
      }
    }

    // The round's first guard, and the latch: nothing else has happened yet.
    method BeginRound(limit: nat, r: Reads) returns (refusal: Option<RoundState>)
      requires Valid() && !replaced
      modifies `canceled, `observed, `refused, `checksLeft, `origin, `history, `sum, `now, `blocked
      ensures origin == history == After(old(history), RoundBegan(limit))
      ensures checksLeft == sum.limit == limit && sum.checks == 0
      ensures sum == Next(old(sum), RoundBegan(limit))
      ensures Valid() && !observed
      ensures Closing(entry)
      ensures now == Max(old(now), r.moment.later) && canceled == r.moment.cancel
      ensures refusal.None? <==>
          !canceled && !r.changed && !old(blocked) && !r.unreadable && !(entry.Some? && entry.value.halted)
      ensures refusal.None? ==> !blocked && !sum.latched && !sum.Unresolved() && (entry.Some? ==> !entry.value.halted)
      ensures refusal.Some? ==> refusal == Some(Paused) || refusal == Some(RequiresReview)
      ensures entry.Some? && entry.value.halted ==> refusal.Some?
    {
      StartRound(limit);
      var err := RoundGuard(r);
      if !err.NoError? {
        return Some(Paused);
      }
      return if entry.Some? && entry.value.halted then Some(RequiresReview) else None;
    }

    method StartRound(limit: nat)
      requires Valid() && !replaced
      modifies `canceled, `observed, `refused, `checksLeft, `origin, `history, `sum
      ensures Valid() && !canceled && !observed && checksLeft == limit
      ensures origin == history == After(old(history), RoundBegan(limit))
      ensures sum == Next(old(sum), RoundBegan(limit))
      ensures !blocked ==> SaveOK(sum, entry, false, now)
      ensures !blocked && (sum.Unresolved() || sum.latched) ==> entry.Some? && entry.value.halted
    {
      canceled, observed, refused, checksLeft := false, false, false, limit;
      Note(RoundBegan(limit));
      origin := history;
      SafeIsCoherent(history);
    }

    method PrepareSearch(version: Version, ids: seq<NodeId>)
      requires Valid() && !blocked && !sum.latched && !sum.Unresolved()
      requires sum.open.Skipped? && sum.loose.None? && !observed
      requires entry.Some? ==> !entry.value.halted
      requires NoDup(ids) && |ids| <= MAX_NODES
      modifies `t, `refusals, `stored, `history, `sum, `replaced
      ensures InRound() && !t.halted && t.version == version && Level()
      ensures (t, replaced) == Prepared(old(entry), version, ids, now)
      ensures history == if replaced then After(old(history), TraversalReplaced) else old(history)
      ensures sum == if replaced then Next(old(sum), TraversalReplaced) else old(sum)
      ensures old(entry).Some? && old(entry).value.version == version && !replaced ==> Continues(old(entry).value, t)
    {
      SetTraversal(version, ids);
      LoadRefusals(replaced);
    }

    method SetTraversal(version: Version, ids: seq<NodeId>)
      requires ValidOption(entry) && (entry.Some? ==> !entry.value.halted)
      requires NoDup(ids) && |ids| <= MAX_NODES
      modifies `t, `replaced
      ensures (t, replaced) == Prepared(entry, version, ids, now)
      ensures ValidTraversal(t) && !t.halted && t.version == version
      ensures if replaced then t.cursor == 0 && MayReplace(entry, t, now)
              else entry.Some? && Continues(entry.value, t) && t.cursor == entry.value.cursor
    {
      t, replaced := PrepareTraversal(entry, version, ids, now);
      if entry.Some? {
        PreparedRestartsOnlyWhenDue(entry.value, version, ids, now);
      }
    }

    method ReorderByProof(proven: NodeId -> bool, tier: Ranks)
      requires InRound() && !t.halted
      modifies `t
      ensures InRound() && !t.halted
      ensures t == FreshFirst(old(t), proven, tier) && t.cursor == old(t.cursor)
    {
      ghost var before := t;
      FreshFirstKeepsConsumed(t, proven, tier);
      t := PrioritizeFreshProofs(t, proven, tier);
      if !replaced && !blocked {
        ContinuesIsTransitive(disk.value, before, t);
      }
    }

    method ReorderBySource(rank: Ranks) returns (preferred: nat)
      requires InRound() && !t.halted
      requires forall id :: id in rank.known ==> rank.known[id] <= rank.default
      modifies `t
      ensures InRound() && !t.halted
      ensures t == SourceSorted(old(t), rank) && t.cursor == old(t.cursor)
      ensures preferred <= |t.ordered| - t.cursor
    {
      ghost var before := t;
      SourceSortKeepsConsumed(t, rank);
      t, preferred := PrioritizeSources(t, rank);
      if !replaced && !blocked {
        ContinuesIsTransitive(disk.value, before, t);
      }
    }

    method Reorder(proven: NodeId -> bool, tier: Ranks, rank: Option<Ranks>, unreadable: bool)
      returns (refused: bool, preferred: nat)
      requires InRound() && !t.halted
      requires rank.Some? ==> forall id :: id in rank.value.known ==> rank.value.known[id] <= rank.value.default
      modifies `t
      ensures InRound() && !t.halted && t.cursor == old(t.cursor)
      ensures refused <==> rank.Some? && unreadable
      ensures var byProof := FreshFirst(old(t), proven, tier);
        ValidTraversal(byProof) && t == if rank.Some? && !unreadable then SourceSorted(byProof, rank.value) else byProof
      ensures preferred <= |t.ordered| - t.cursor
    {
      ReorderByProof(proven, tier);
      refused, preferred := rank.Some? && unreadable, 0;
      if rank.Some? && !unreadable {
        preferred := ReorderBySource(rank.value);
      }
    }

    // The reorderings read the catalogue, which takes time.
    method ReorderLater(proven: NodeId -> bool, tier: Ranks, rank: Option<Ranks>, o: Outside)
      returns (refused: bool, preferred: nat)
      requires InRound() && Level() && !t.halted
      requires rank.Some? ==> forall id :: id in rank.value.known ==> rank.value.known[id] <= rank.value.default
      modifies `t, `now, `canceled
      ensures InRound() && Level() && !t.halted
      ensures preferred <= |t.ordered| - t.cursor
      ensures refused <==> rank.Some? && o.sourcesUnreadable
      ensures now == Max(old(now), o.preparing.later) && canceled == (old(canceled) || o.preparing.cancel)
    {
      Elapse(o.preparing);
      refused, preferred := Reorder(proven, tier, rank, o.sourcesUnreadable);
    }

    /** One bounded search over the next `count` pending candidates. */
    method SearchNext(count: nat, current: Option<NodeId>, phase: Phase) returns (err: Error, applied: Option<NodeId>)
      requires InRound() && !replaced && !t.halted && !observed
      requires t.cursor + count <= |t.ordered|
      requires sum.checks + checksLeft == sum.limit && checksLeft >= 0
      modifies `offset, `window, `checksLeft, `t, `observed, `refused, `refusals, `stored, `disk, `blocked, `history,
        `sum, `entry, `replaced, `now, `canceled
      ensures InRound() && !replaced
      ensures Further(old(t), t, count)
      ensures sum.checks + checksLeft == sum.limit == old(sum.limit) && checksLeft >= 0
      ensures applied.Some? ==> !sum.Unresolved()
      ensures sum.succeeded == if applied.Some? then applied else old(sum).succeeded
      ensures applied.None? && err.NoError? ==>
          !t.halted && !observed && (t.cursor == old(t.cursor) + count || checksLeft == 0)
      ensures 1 <= old(checksLeft) <= 4 ==> EndsRight(err)
      ensures err.RefusalPause? ==> !PauseOver()
      ensures checksLeft <= old(checksLeft)
    {
      Present(count);
      var checks;
      err, applied, checks := SearchFirstUsable(current, checksLeft, phase);
      Spend(checks);
    }

    method Spend(checks: int)
      requires InRound()
      modifies `checksLeft
      ensures InRound() && checksLeft == old(checksLeft) - checks
    {
      checksLeft := checksLeft - checks;
    }

    method Present(count: nat)
      requires InRound()
      modifies `offset, `window
      ensures InRound() && offset == t.cursor && window == count
    {
      offset, window := t.cursor, count;
    }

    /** Both phases under one budget: the whole preferred prefix is passed before
        local routes or any other candidate get their turn. */
    method RunPhases(preferred: nat, current: Option<NodeId>, localAllowed: bool, o: Outside)
      returns (settled: Option<RoundState>, err: Error, applied: Option<NodeId>)
      requires InRound() && !replaced && !t.halted && !observed
      requires preferred <= |t.ordered| - t.cursor
      requires sum.checks + checksLeft == sum.limit && checksLeft >= 0
      modifies this
      ensures InRound() && !replaced
      ensures t.ordered == old(t.ordered) && old(t.cursor) <= t.cursor
      ensures sum.checks <= sum.limit == old(sum.limit)
      ensures applied.Some? ==> settled.None? && !sum.Unresolved()
      ensures sum.succeeded == if applied.Some? then applied else old(sum).succeeded
      ensures settled.Some? ==> settled.value.RequiresReview? || settled.value.Unsettled?
      ensures t.standardRoutesTried && !old(t.standardRoutesTried) ==> t.cursor >= old(t.cursor) + preferred
      ensures settled.None? && err.NoError? && applied.None? ==>
        localAllowed && t.cursor >= old(t.cursor) + preferred ==> t.standardRoutesTried
      ensures sum.checks + checksLeft == sum.limit
      ensures settled.None? && err.NoError? && applied.None? ==> checksLeft == 0 || t.exhausted
      ensures origin == old(origin)
      ensures 1 <= old(checksLeft) <= 4 ==> !err.BadRequest?
      ensures err.RefusalPause? ==> !PauseOver()
      ensures preferred == 0 && localAllowed ==> t.standardRoutesTried
    {
      settled, applied, err := None, None, NoError;
      var preferredEnd := t.cursor + preferred;
      if preferred > 0 {
        err, applied := SearchNext(preferred, current, o.preferred);
      }
      if err.NoError? && applied.None? && t.cursor >= preferredEnd {
        settled := StandardRoutes(localAllowed, o.local);
        if settled.Some? {
          return;
        }
        if checksLeft > 0 && !t.exhausted {
          err, applied := SearchNext(|t.ordered| - t.cursor, current, o.rest);
        }
      }
    }

    /** An exhausted list waits; a paused search waits; any other is searched. */
    method SearchPrepared(preferred: nat, sourcesPreferred: bool, current: Option<NodeId>, localAllowed: bool,
                          o: Outside)
      returns (state: RoundState)
      requires InRound() && !replaced && !t.halted && !observed
      requires preferred <= |t.ordered| - t.cursor
      requires sum.checks + checksLeft == sum.limit && checksLeft >= 0
      modifies this
      ensures InRound()
      ensures sum.checks <= sum.limit == old(sum.limit)
      ensures state.Done? ==> !t.halted
      ensures old(sum).succeeded.None? ==> (state.Done? <==> sum.succeeded.Some?)
      ensures state.Searching? ==> t.exhausted || sum.checks == sum.limit
      ensures origin == old(origin)
      ensures !old(t.exhausted || PauseOver()) ==> state.ServiceUnconfirmed? && sum == old(sum) && t == old(t)
      ensures state.ServiceUnconfirmed? ==> !PauseOver()
      ensures !state.CatalogUnavailable?
    {
      if t.exhausted {
        state := AwaitRecheck(sourcesPreferred, localAllowed, o);
        return;
      }
      if refusals.until.Some? && now < refusals.until.value {
        return ServiceUnconfirmed;
      }
      state := SearchPending(preferred, current, localAllowed, o);
    }

    // The phases, and what the round makes of them.
    method SearchPending(preferred: nat, current: Option<NodeId>, localAllowed: bool, o: Outside)
      returns (state: RoundState)
      requires InRound() && !replaced && !t.halted && !observed
      requires preferred <= |t.ordered| - t.cursor
      requires sum.checks + checksLeft == sum.limit && checksLeft >= 0
      modifies this
      ensures InRound()
      ensures sum.checks <= sum.limit == old(sum.limit)
      ensures state.Done? ==> !t.halted
      ensures old(sum).succeeded.None? ==> (state.Done? <==> sum.succeeded.Some?)
      ensures state.Searching? ==> t.exhausted || sum.checks == sum.limit
      ensures state.ServiceUnconfirmed? ==> !PauseOver()
      ensures !state.CatalogUnavailable?
      ensures origin == old(origin)
    {
      var settled, err, applied := RunPhases(preferred, current, localAllowed, o);
      if settled.Some? {
        return settled.value;
      }
      if applied.Some? {
        Finish();
        return Done;
      }
      return Unfinished(err);
    }

    // The halt of an application that succeeded is lifted in memory; the closing save has it.
    method Finish()
      requires InRound() && !sum.Unresolved()
      modifies `t
      ensures InRound() && t == old(t).(halted := false)
    {
      t := t.(halted := false);
    }

    function Unfinished(err: Error): RoundState {
      match err
      case NotPersisted => RequiresReview
      case OverBudget => RateLimited
      case RefusalPause => ServiceUnconfirmed
      case NoError => Searching
      case _ => Unsettled
    }

    method AwaitRecheck(sourcesPreferred: bool, localAllowed: bool, o: Outside) returns (state: RoundState)
      requires InRound() && !replaced && !t.halted && t.exhausted
      modifies `t, `disk, `blocked, `history, `sum, `entry, `replaced
      ensures InRound()
      ensures SameChecks(old(sum), sum) && sum.succeeded == old(sum).succeeded
      ensures t.exhausted && !state.Done?
      ensures t.retryAt ==
        if old(t.retryAt).None? && sourcesPreferred then Some(now + reserve) else old(t.retryAt)
      ensures old(t.retryAt).None? && sourcesPreferred && (canceled || old(blocked) || !o.waiting.Lands?) ==>
        state.RequiresReview?
      ensures !canceled && !old(blocked) && o.waiting.Lands? ==>
        state ==
        if !localAllowed || old(t.standardRoutesTried) then Searching
        else if !o.local.saving.Lands? then RequiresReview
        else if o.local.settled then Unsettled else Searching
      ensures state.Searching? || state.RequiresReview? || state.Unsettled?
    {
      if t.retryAt.None? && sourcesPreferred {
        t := t.(retryAt := Some(now + reserve));
        var result := SaveInPlace(o.waiting);
        if !result.Confirmed? {
          return RequiresReview;
        }
      }
      var settled := StandardRoutes(localAllowed, o.local);
      return if settled.Some? then settled.value else Searching;
    }

    lemma SearchMayClose()
      requires InRound()
      ensures Closing(Some(t))
    {
    }

    /** Prepares, reorders and saves the traversal, then searches it. */
    method SearchCandidates(version: Version, ids: seq<NodeId>, proven: NodeId -> bool, tier: Ranks,
                            rank: Option<Ranks>, current: Option<NodeId>, localAllowed: bool, o: Outside)
      returns (state: RoundState)
      requires Valid() && !blocked && !sum.latched && !sum.Unresolved() && IsPrefix(origin, history)
      requires sum.open.Skipped? && sum.loose.None? && !observed
      requires sum.checks == 0 && sum.limit == checksLeft
      requires entry.Some? ==> !entry.value.halted
      requires NoDup(ids) && |ids| <= MAX_NODES
      requires rank.Some? ==> forall id :: id in rank.value.known ==> rank.value.known[id] <= rank.value.default
      modifies this
      ensures InRound() && origin == old(origin)
      ensures sum.checks <= sum.limit == old(sum.limit)
      ensures state.Done? ==> !t.halted
      ensures old(sum).succeeded.None? ==> (state.Done? <==> sum.succeeded.Some?)
      ensures state.Searching? ==> t.exhausted || sum.checks == sum.limit
      ensures state.CatalogUnavailable? <==> rank.Some? && o.sourcesUnreadable
    {
      PrepareSearch(version, ids);
      var refused, preferred := ReorderLater(proven, tier, rank, o);
      if refused {
        return CatalogUnavailable;
      }
      state := SaveAndSearch(preferred, rank.Some?, current, localAllowed, o);
    }

    method SaveAndSearch(preferred: nat, sourcesPreferred: bool, current: Option<NodeId>, localAllowed: bool,
                         o: Outside)
      returns (state: RoundState)
      requires InRound() && Level() && !t.halted && !observed
      requires preferred <= |t.ordered| - t.cursor
      requires sum.checks == 0 && sum.limit == checksLeft
      modifies this
      ensures InRound() && origin == old(origin)
      ensures sum.checks <= sum.limit == old(sum.limit)
      ensures state.Done? ==> !t.halted
      ensures old(sum).succeeded.None? ==> (state.Done? <==> sum.succeeded.Some?)
      ensures state.Searching? ==> t.exhausted || sum.checks == sum.limit
      ensures !state.CatalogUnavailable?
    {
      var result := SaveInPlace(o.saving);
      if !result.Confirmed? {
        return RequiresReview;
      }
      state := SearchPrepared(preferred, sourcesPreferred, current, localAllowed, o);
    }

    /** The search of one round. A halted traversal stops it before anything. */
    method RunFirstUsable(version: Version, ids: seq<NodeId>, proven: NodeId -> bool, tier: Ranks, rank: Option<Ranks>,
                          current: Option<NodeId>, localAllowed: bool, limit: nat, o: Outside)
      returns (state: RoundState, search: Option<Traversal>)
      requires Valid() && !replaced
      requires NoDup(ids) && |ids| <= MAX_NODES
      requires rank.Some? ==> forall id :: id in rank.value.known ==> rank.value.known[id] <= rank.value.default
      modifies this
      ensures Closing(search)
      ensures IsPrefix(After(old(history), RoundBegan(limit)), history)
      ensures sum.limit == limit && sum.checks <= limit
      ensures old(entry).Some? && old(entry).value.halted ==>
                && (state == Paused || state == RequiresReview) && search == old(entry)
                && history == After(old(history), RoundBegan(limit))
      ensures state.Done? <==> sum.succeeded.Some?
      ensures state.Done? ==> search.Some? && !search.value.halted
      ensures state.Searching? ==> search.Some? && (search.value.exhausted || sum.checks == limit)
    {
      var refusal := BeginRound(limit, o.start);
      if refusal.Some? {
        return refusal.value, entry;
      }
      state := SearchCandidates(version, ids, proven, tier, rank, current, localAllowed, o);
      SearchMayClose();
      return state, Some(t);
    }

    /** A whole round of the worker: the opening save, the search, the closing save. */
    method Round(version: Version, ids: seq<NodeId>, proven: NodeId -> bool, tier: Ranks, rank: Option<Ranks>,
                 current: Option<NodeId>, localAllowed: bool, limit: nat, o: Outside)
      requires Valid()
      requires NoDup(ids) && |ids| <= MAX_NODES
      requires rank.Some? ==> forall id :: id in rank.value.known ==> rank.value.known[id] <= rank.value.default
      modifies this
      ensures Valid()
      ensures IsPrefix(old(history), history)
      ensures !old(blocked) && !o.opening.Lost? ==>
        IsPrefix(After(old(history), Saved(old(entry), false, old(now))), history)
    {
      replaced := false;
      EntryMayBeSaved();
      ghost var before := history;
      SaveRuntime(entry, o.opening);
      ghost var saved := history;
      var state, search := RunFirstUsable(version, ids, proven, tier, rank, current, localAllowed, limit, o);
      PrefixIsTransitive(saved, After(saved, RoundBegan(limit)), history);
      ghost var searched := history;
      SaveRuntime(search, o.closing);
      PrefixIsTransitive(before, saved, searched);
      PrefixIsTransitive(before, searched, history);
    }

    /** A cursor write and the closing save of its round. As long as no save fails, the
        candidate is consumed on disk either way; it reaches the count exactly when the
        context was not canceled as the hook was entered, or when counting it would not
        have changed the count. */
    method ConsumeAndClose(next: int, w: Write, w': Write)
      requires InRound() && Level() && !replaced && PauseOver() && !blocked
      requires 0 <= offset <= t.cursor < offset + window <= |t.ordered|
      requires IsNext(next)
      requires sum.guarded && Settled(sum, t.ordered[t.cursor])
      modifies this
      ensures Valid()
      ensures !blocked ==> disk == entry == Some(t) && Consumed(t) == Consumed(old(t)) + [old(t.ordered[t.cursor])]
      ensures var due := AfterPause(old(NextRun()), t.retryAt);
        !blocked ==> (refusals == due <==> !old(canceled) || due == old(refusals))
      ensures blocked ==> !(w.Lands? && w'.Lands?)
    {
      var ok := PersistCursor(next, w);
      SearchMayClose();
      SaveRuntime(Some(t), w');
    }

    // The entry lists these candidates, k of them consumed; none at first.
    predicate EntryAt(version: Version, ids: seq<NodeId>, k: nat)
      reads this
    {
      if k == 0 then entry.None?
      else
        && entry.Some? && ValidTraversal(entry.value) && !entry.value.halted
        && entry.value.version == version && entry.value.ordered == ids && entry.value.cursor == k
    }

    // k candidates are consumed and none of them is counted; nothing is pausing.
    ghost predicate Lost(version: Version, ids: seq<NodeId>, k: nat)
      reads this
    {
      && Valid() && !blocked && !replaced && !sum.latched && !sum.Unresolved() && sum.until.None?
      && EntryAt(version, ids, k)
    }

    // Neither the consumptions nor the outcomes have changed.
    ghost predicate SameTally(before: History)
      reads this
    {
      Consumptions(history) == Consumptions(before) && Outcomes(history) == Outcomes(before)
    }

    /** One round whose context is canceled after its first check was refused, step by
        step: no save fails, the refusal is consumed, and it is not counted. */
    method LoseOneRefusal(version: Version, ids: seq<NodeId>, k: nat)
      requires Lost(version, ids, k) && k < |ids| <= MAX_NODES && NoDup(ids)
      requires k == 0 ==> Consumptions(history) == [] && Outcomes(history) == []
      modifies this
      ensures Lost(version, ids, k + 1)
      ensures Consumptions(history) == old(Consumptions(history)) + [Taken(ServiceRefusal, false)]
      ensures Outcomes(history) == old(Outcomes(history))
    {
      OpenRound();
      PrepareAndSave(version, ids, k);
      CheckAndCancel(version, ids, k);
      RefuseAndClose(version, ids, k);
    }

    method OpenRound()
      requires Valid() && !blocked && !sum.latched && !sum.Unresolved() && (entry.Some? ==> !entry.value.halted)
      modifies this
      ensures Valid() && !blocked && !sum.latched && !sum.Unresolved() && !canceled && !observed
      ensures entry == old(entry) && sum.until == old(sum.until) && sum.open.Skipped? && sum.loose.None? &&
          sum.checks < sum.limit
      ensures SameTally(old(history))
    {
      replaced := false;
      EntryMayBeSaved();
      SaveRuntime(entry, Lands);
      var refusal := BeginRound(1, Reads(Moment(now, false), false, false));
    }

    // In the round over the listed candidates, k of them consumed.
    ghost predicate SearchingAt(version: Version, ids: seq<NodeId>, k: nat)
      reads this
    {
      && InRound() && Level() && !blocked && !replaced && !sum.Unresolved() && sum.until.None?
      && t.version == version && t.ordered == ids && t.cursor == k < |ids| && !t.halted
    }

    method PrepareAndSave(version: Version, ids: seq<NodeId>, k: nat)
      requires Valid() && !blocked && !sum.latched && !sum.Unresolved() && !canceled && !observed && sum.until.None?
      requires sum.open.Skipped? && sum.loose.None? && sum.checks < sum.limit
      requires EntryAt(version, ids, k)
      requires k < |ids| <= MAX_NODES && NoDup(ids)
      requires k == 0 ==> Consumptions(history) == [] && Outcomes(history) == []
      modifies this
      ensures SearchingAt(version, ids, k) && !canceled && !observed && sum.checks < sum.limit
      ensures SameTally(old(history))
    {
      if entry.Some? {
        RefreshedIsTheSame(entry.value, ids);
      }
      PrepareSame(version, ids, k);
      SavePrepared(version, ids, k);
    }

    method PrepareSame(version: Version, ids: seq<NodeId>, k: nat)
      requires Valid() && !blocked && !sum.latched && !sum.Unresolved() && !canceled && !observed && sum.until.None?
      requires sum.open.Skipped? && sum.loose.None?
      requires EntryAt(version, ids, k)
      requires k < |ids| <= MAX_NODES && NoDup(ids)
      requires entry.Some? ==> Refreshed(entry.value, ids) == entry.value
      modifies `t, `refusals, `stored, `history, `sum, `replaced
      ensures InRound() && Level() && t.version == version && t.ordered == ids && t.cursor == k && !t.halted
      ensures history == old(history) || (k == 0 && history == After(old(history), TraversalReplaced))
      ensures sum.until.None? && sum.checks == old(sum.checks) && sum.limit == old(sum.limit) && !sum.Unresolved()
    {
      PrepareSearch(version, ids);
    }

    method SavePrepared(version: Version, ids: seq<NodeId>, k: nat)
      requires InRound() && Level() && !blocked && !canceled && !sum.Unresolved() && sum.until.None?
      requires t.version == version && t.ordered == ids && t.cursor == k < |ids| && !t.halted
      modifies `disk, `blocked, `history, `sum, `entry, `replaced
      ensures SearchingAt(version, ids, k) && SameTally(old(history))
      ensures SameChecks(old(sum), sum)
    {
      SaveTellsNothing(history, Some(t), replaced, now);
      var result := SaveInPlace(Lands);
    }

    method CheckAndCancel(version: Version, ids: seq<NodeId>, k: nat)
      requires SearchingAt(version, ids, k) && !canceled && !observed && sum.checks < sum.limit
      modifies `offset, `window, `now, `canceled, `blocked, `observed, `refused, `history, `sum
      ensures SearchingAt(version, ids, k) && canceled && observed && refused
      ensures offset == k && window == |ids| - k
      ensures sum.guarded && Settled(sum, ids[k])
      ensures SameTally(old(history))
    {
      offset, window := t.cursor, |t.ordered| - t.cursor;
      CheckRefused(version, ids, k);
      ConfirmRefused(version, ids, k);
    }

    method CheckRefused(version: Version, ids: seq<NodeId>, k: nat)
      requires SearchingAt(version, ids, k) && !canceled && !observed && sum.checks < sum.limit
      modifies `now, `canceled, `blocked, `observed, `refused, `history, `sum
      ensures SearchingAt(version, ids, k) && !canceled && observed && refused
      ensures sum.checked == Some(LastCheck(ids[k], FoundRefusal))
      ensures SameTally(old(history))
    {
      PassGuard(version, ids, k);
      PassGuard(version, ids, k);
      NoteRefusal(version, ids, k);
    }

    method NoteRefusal(version: Version, ids: seq<NodeId>, k: nat)
      requires SearchingAt(version, ids, k) && !canceled && !observed && sum.checks < sum.limit && sum.guarded
      modifies `now, `canceled, `observed, `refused, `history, `sum
      ensures SearchingAt(version, ids, k) && !canceled && observed && refused
      ensures sum.checked == Some(LastCheck(ids[k], FoundRefusal))
      ensures SameTally(old(history))
    {
      CheckTellsNothing(history, Checked(ids[k], FoundRefusal, now));
      var outcome := Check(t.ordered[t.cursor], FoundRefusal, Moment(now, false));
    }

    // The record of the check is there, the guards pass, and then the context is canceled.
    method ConfirmRefused(version: Version, ids: seq<NodeId>, k: nat)
      requires SearchingAt(version, ids, k) && !canceled && sum.checked == Some(LastCheck(ids[k], FoundRefusal))
      modifies `now, `canceled, `blocked, `history, `sum
      ensures SearchingAt(version, ids, k) && canceled && Settled(sum, ids[k]) && sum.guarded
      ensures SameTally(old(history))
    {
      PassGuard(version, ids, k);
      ReadBack(version, ids, k);
      PassGuard(version, ids, k);
      Elapse(Moment(now, true));
    }

    method ReadBack(version: Version, ids: seq<NodeId>, k: nat)
      requires SearchingAt(version, ids, k) && sum.checked == Some(LastCheck(ids[k], FoundRefusal))
      modifies `history, `sum
      ensures SearchingAt(version, ids, k) && Settled(sum, ids[k])
      ensures SameTally(old(history))
    {
      CheckTellsNothing(history, RecordVerified(ids[k]));
      var err := VerifyRecord(ids[k], true);
    }

    // The guard finds nothing changed, at once.
    method PassGuard(version: Version, ids: seq<NodeId>, k: nat)
      requires SearchingAt(version, ids, k) && !canceled
      modifies `now, `canceled, `blocked, `history, `sum
      ensures SearchingAt(version, ids, k) && !canceled
      ensures sum == Next(old(sum), GuardPassed(now))
      ensures SameTally(old(history))
    {
      CheckTellsNothing(history, GuardPassed(now));
      var err := Guard(Reads(Moment(now, false), false, false));
    }

    method RefuseAndClose(version: Version, ids: seq<NodeId>, k: nat)
      requires SearchingAt(version, ids, k) && canceled && observed && refused
      requires offset == k && window == |ids| - k
      requires sum.guarded && Settled(sum, ids[k])
      modifies this
      ensures Lost(version, ids, k + 1)
      ensures Consumptions(history) == old(Consumptions(history)) + [Taken(ServiceRefusal, false)]
      ensures Outcomes(history) == old(Outcomes(history))
    {
      var next := RingNext(0, window);
      var ok := PersistCursor(next, Lands);
      SearchMayClose();
      SaveRuntime(Some(t), Lands);
    }

    /** The owner enrolls the service anew, or asks to remove it: an explicit act that
        clears its entry. */
    method Reset(w: Write)
      requires Valid()
      modifies this
      ensures Valid()
      ensures blocked == (old(blocked) || !w.Lands?)
      ensures history == if !old(blocked) && !w.Lost? then After(old(history), OwnerReset) else old(history)
    {
      entry := None;
      if blocked {
        return;
      }
      if !w.Lost? {
        disk := None;
        history := After(history, OwnerReset);
        sum := Next(sum, OwnerReset);
      }
      blocked := !w.Lands?;
    }
  }

  /** The library's ring: behind the end of the window comes its beginning. */
  method RingNext(i: int, n: int) returns (next: int)
    requires 0 <= i < n
    ensures next == if i + 1 == n then 0 else i + 1
  {
    next := (i + 1) % n;
  }

  // A list that holds exactly what is offered is kept as it is.
  lemma RefreshedIsTheSame(t: Traversal, ids: seq<NodeId>)
    requires ValidTraversal(t) && t.ordered == ids
    ensures Refreshed(t, ids) == t
  {
    var base := Consumed(t) + Filter(Among(ids), Pending(t));
    FilterKeepsAll(Among(ids), Pending(t));
    assert base == ids;
    SortIdsIsSorted(ids);
    AppendNewMembers(base, SortIds(ids));
  }

  /** Such rounds can follow each other from the start of a process: n refusals in a
      row are consumed, none is counted, and the search does not pause. */
  method RefusalsLostToCancellation(version: Version, ids: seq<NodeId>, n: nat, reserve: int) returns (a: Autopilot)
    requires NoDup(ids) && n <= |ids| <= MAX_NODES
    ensures a.Valid() && !a.blocked && a.sum.until.None?
    ensures Consumptions(a.history) == seq(n, _ => Taken(ServiceRefusal, false)) && Outcomes(a.history) == []
  {
    a := new Autopilot.Boot(Start(()), 0, reserve);
    for k := 0 to n
      invariant a.Lost(version, ids, k) && fresh(a)
      invariant Consumptions(a.history) == seq(k, _ => Taken(ServiceRefusal, false)) && Outcomes(a.history) == []
    {
      a.LoseOneRefusal(version, ids, k);
    }
  }

  /** Everything together: any rounds, owners' resets, and crashes that cut the run
      after any event and start a new process, in any order. What every safe history
      guarantees therefore holds of it. */
  method Live(turns: nat, reserve: int) returns (a: Autopilot)
    ensures a.Valid() && Safe(a.history)
  {
    a := new Autopilot.Boot(Start(()), 0, reserve);
    for i := 0 to turns
      invariant a.Valid() && fresh(a)
    {
      var reset: bool, crash: bool, w: Write := *, *, *;
      if crash {
        var cut: nat, later: int := *, *;
        CutIsPrefix(a.history, cut);
        SafeUpTo(Cut(a.history, cut), a.history);
        a := new Autopilot.Boot(Cut(a.history, cut), Max(a.now, later), reserve);
      } else if reset {
        a.Reset(w);
      } else {
        AnyRound(a);
      }
    }
  }

  method AnyRound(a: Autopilot)
    requires a.Valid()
    modifies a
    ensures a.Valid()
  {
    var version: Version, ids: seq<NodeId>, proven: set<NodeId>, tier: Ranks := *, *, *, *;
    var rank: Option<Ranks>, current: Option<NodeId>, localAllowed: bool, limit: nat := *, *, *, *;
    var o: Outside := *;
    if NoDup(ids) && |ids| <= MAX_NODES &&
      (rank.Some? ==> forall id :: id in rank.value.known ==> rank.value.known[id] <= rank.value.default) {
      a.Round(version, ids, x => x in proven, tier, rank, current, localAllowed, limit, o);
    }
  }
}

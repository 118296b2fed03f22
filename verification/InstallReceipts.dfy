/** Automatic installation: one durable slot holds either the receipt of a completed
    maintenance window or the record of an attempted hand-off. What the slot
    guarantees across crashes and restarts, and what it forgets. */
module InstallReceipts {
  import opened Basics
  import opened Histories

  type Version = int
  type WindowKey = int

  datatype Receipt = Empty | Attempt(version: Version) | Window(key: WindowKey)

  datatype Event =
    | Booted(running: Version)
    | Recorded(version: Version)               // the record of an attempt reached the disk
    | HandedOff(version: Version)              // the installer was called
    | Refused(version: Version)                // it definitely refused, before taking over
    | PutBack                                  // the record was taken back for the one before it
    | Completed(key: WindowKey)                // a completed window reached the disk

  type History = Trace<(Version, Receipt), Event>

  datatype Stage = OnRecord | InHands | TurnedDown

  // What the process keeps of the slot while it hands off a package.
  datatype Deal = Deal(before: Receipt, stage: Stage)

  datatype Summary = Summary(disk: Receipt, running: Version, deal: Option<Deal>)

  function Next(s: Summary, e: Event): Summary {
    match e
    case Booted(running) => Summary(s.disk, running, None)
    case Recorded(version) => Summary(Attempt(version), s.running, Some(Deal(s.disk, OnRecord)))
    case HandedOff(_) => if s.deal.Some? then s.(deal := Some(s.deal.value.(stage := InHands))) else s
    case Refused(_) => if s.deal.Some? then s.(deal := Some(s.deal.value.(stage := TurnedDown))) else s
    case PutBack => if s.deal.Some? then Summary(s.deal.value.before, s.running, None) else s
    case Completed(key) => Summary(Window(key), s.running, None)
  }

  function Summarize(h: History): Summary {
    match h
    case Start(initial) => Summary(initial.1, initial.0, None)
    case After(past, e) => Next(Summarize(past), e)
  }

  predicate AtStage(s: Summary, version: Version, stage: Stage) {
    s.disk == Attempt(version) && s.deal.Some? && s.deal.value.stage == stage
  }

  predicate StepOK(s: Summary, e: Event) {
    match e
    case Booted(_) => true
    case Recorded(version) => s.disk != Attempt(version) || s.running == version
    case HandedOff(version) => AtStage(s, version, OnRecord)
    case Refused(version) => AtStage(s, version, InHands)
    case PutBack => s.deal.Some? && s.deal.value.stage.TurnedDown?
    case Completed(_) => !(s.disk.Attempt? && s.disk.version != s.running)
  }

  ghost predicate May(p: History, e: Event) {
    StepOK(Summarize(p), e)
  }

  ghost predicate Safe(h: History) {
    Permitted(May, h)
  }

  lemma SafeUpTo(p: History, h: History)
    requires Safe(h) && IsPrefix(p, h)
    ensures Safe(p)
  {
    PermittedUpTo(May, p, h);
  }

  // ---- when a version may be handed off again ----

  // v is definitely refused, runs, or is recorded again.
  function Settles(v: Version): Event -> bool {
    (e: Event) => e == Refused(v) || e == Booted(v) || e == Recorded(v)
  }

  /** How many records of attempts were written and not put back. */
  function Unreturned(first: History, last: History): int
    requires IsPrefix(first, last)
    decreases last
  {
    if first == last then 0
    else Unreturned(first, last.past) + if last.event.Recorded? then 1 else if last.event.PutBack? then -1 else 0
  }

  // The slot since the hand-off of v: its record is the one the others would give back.
  predicate Guards(s: Summary, v: Version, unreturned: int) {
    && s.running != v && unreturned >= 0
    && (s.disk == Attempt(v) <==> unreturned == 0)
    && (s.deal.Some? && unreturned == 0 ==> s.deal.value.stage.InHands?)
    && (s.deal.Some? && unreturned > 0 ==> (s.deal.value.before == Attempt(v) <==> unreturned == 1))
  }

  lemma GuardsStep(s: Summary, v: Version, unreturned: int, e: Event)
    requires Guards(s, v, unreturned) && StepOK(s, e) && !Settles(v)(e)
    ensures Guards(Next(s, e), v, unreturned + if e.Recorded? then 1 else if e.PutBack? then -1 else 0)
  {
  }

  lemma {:induction false} SlotSinceHandOff(p: History, v: Version, last: History)
    requires Safe(last) && IsPrefix(After(p, HandedOff(v)), last)
    requires Summarize(p).running != v && !Between(After(p, HandedOff(v)), last, Settles(v))
    ensures Guards(Summarize(last), v, Unreturned(After(p, HandedOff(v)), last))
  {
    var first := After(p, HandedOff(v));
    if first != last {
      SlotSinceHandOff(p, v, last.past);
      GuardsStep(Summarize(last.past), v, Unreturned(first, last.past), last.event);
    }
  }

  /** After v was handed off, and while it was neither refused nor running nor recorded
      anew: the slot holds its record exactly when every record of another attempt was
      put back, and v may be recorded again exactly when one was not. */
  lemma RecordedAgainExactly(p: History, v: Version, q: History)
    requires Safe(q) && IsPrefix(After(p, HandedOff(v)), q)
    requires Summarize(p).running != v && !Between(After(p, HandedOff(v)), q, Settles(v))
    ensures Summarize(q).disk == Attempt(v) <==> Unreturned(After(p, HandedOff(v)), q) == 0
    ensures Safe(After(q, Recorded(v))) <==> Unreturned(After(p, HandedOff(v)), q) > 0
  {
    SlotSinceHandOff(p, v, q);
  }

  // A second hand-off needs a second record.
  lemma {:induction false} NotOnRecord(p: History, v: Version, q: History)
    requires Safe(q) && IsPrefix(After(p, HandedOff(v)), q)
    requires !Between(After(p, HandedOff(v)), q, Settles(v))
    ensures !AtStage(Summarize(q), v, OnRecord)
  {
    if After(p, HandedOff(v)) != q {
      NotOnRecord(p, v, q.past);
    }
  }

  // The first event of a kind.
  lemma {:induction false} FirstOf(first: History, last: History, what: Event -> bool) returns (m: History, e: Event)
    requires IsPrefix(first, last) && Between(first, last, what)
    ensures IsPrefix(first, m) && !Between(first, m, what) && what(e) && IsPrefix(After(m, e), last)
  {
    if Between(first, last.past, what) {
      m, e := FirstOf(first, last.past, what);
    } else {
      m, e := last.past, last.event;
    }
  }

  /** Between two automatic hand-offs of one version the first is definitely refused, or
      the process runs as that version, or the version is recorded again; and that only
      while the record of another attempt has not been put back. */
  lemma NoBlindSecondHandOff(p: History, v: Version, q: History, h: History) returns (m: History, e: Event)
    requires Safe(h) && Summarize(p).running != v
    requires IsPrefix(After(p, HandedOff(v)), q) && IsPrefix(After(q, HandedOff(v)), h)
    ensures IsPrefix(After(p, HandedOff(v)), m) && IsPrefix(After(m, e), q)
    ensures e == Refused(v) || e == Booted(v) || e == Recorded(v)
    ensures e == Recorded(v) ==> Unreturned(After(p, HandedOff(v)), m) > 0
  {
    var first := After(p, HandedOff(v));
    SafeUpTo(After(q, HandedOff(v)), h);
    if !Between(first, q, Settles(v)) {
      NotOnRecord(p, v, q);
    }
    m, e := FirstOf(first, q, Settles(v));
    SafeUpTo(After(m, e), q);
    RecordedAgainExactly(p, v, m);
  }

  /** A completed window never replaces the record of an attempt at a version that
      is not running. */
  lemma AttemptSurvivesCompletedWindows(p: History, key: WindowKey, h: History)
    requires Safe(h) && IsPrefix(After(p, Completed(key)), h)
    ensures !(Summarize(p).disk.Attempt? && Summarize(p).disk.version != Summarize(p).running)
  {
    SafeUpTo(After(p, Completed(key)), h);
  }

  ghost predicate Happened(h: History, e: Event) {
    h.After? && (h.event == e || Happened(h.past, e))
  }

  // ---- the process ----

  const MAX_RUNS: nat := 3
  const MINUTE: int := 60

  datatype Run = Run(key: WindowKey, next: int, attempts: nat, running: bool, pending: bool)

  // A write reaches the file and is confirmed; reaches it and fails; does not reach it.
  datatype Write = Lands | LandsUnconfirmed | Lost

  /** One, two, then four minutes. */
  function RetryDelay(attempts: nat): int {
    if attempts <= 1 then MINUTE else if attempts == 2 then 2 * MINUTE else 4 * MINUTE
  }

  /** The delay doubles from run to run, as long as there may be another one. */
  lemma RetryDelayDoubles(attempts: nat)
    requires 1 <= attempts < MAX_RUNS
    ensures RetryDelay(1) == 60 && RetryDelay(attempts + 1) == 2 * RetryDelay(attempts)
  {
    assert attempts == 1 || attempts == 2;
  }

  class Updater {
    const running: Version
    var disk: Receipt
    var receipt: Receipt
    var blocked: bool
    var prepared: Option<Version>   // a prepared package the round installs
    var run: Option<Run>            // process-local retry data of the window
    ghost var history: History

    ghost predicate Recording()
      reads this
    {
      Safe(history) && Summarize(history).disk == disk && Summarize(history).running == running
    }

    ghost predicate Valid()
      reads this
    {
      Recording() && (!blocked ==> receipt == disk) && (run.Some? ==> run.value.attempts <= MAX_RUNS)
    }

    /** A process of some version starts over whatever a crash left. */
    constructor (ghost past: History, image: Receipt, version: Version)
      requires Safe(past) && Summarize(past).disk == image
      ensures Valid() && !blocked && receipt == disk == image && running == version && prepared.None?
      ensures history == After(past, Booted(version))
    {
      running, disk, receipt, blocked, prepared, run := version, image, image, false, None, None;
      history := After(past, Booted(version));
    }

    /** The document save of the slot; a failure blocks, and may have landed. */
    method Persist(ghost e: Event, w: Write) returns (ok: bool)
      requires Recording()
      requires !blocked ==> StepOK(Summarize(history), e) && Next(Summarize(history), e).disk == receipt && !e.Booted?
      modifies `disk, `blocked, `history
      ensures Recording()
      ensures ok <==> !old(blocked) && w.Lands?
      ensures blocked == !ok
      ensures history == if !old(blocked) && !w.Lost? then After(old(history), e) else old(history)
      ensures disk == if !old(blocked) && !w.Lost? then receipt else old(disk)
    {
      if blocked {
        return false;
      }
      if !w.Lost? {
        disk := receipt;
        history := After(history, e);
      }
      ok := w.Lands?;
      blocked := !ok;
    }

    /** Whether an automatic hand-off of the version would repeat an attempt. */
    predicate AutoInstallFailed(version: Version)
      reads this
    {
      receipt == Attempt(version) && running != version
    }

    /** The window's own receipt, or its slot alone as an older release wrote it. */
    predicate IsDone(key: WindowKey, slot: Option<WindowKey>)
      reads this
    {
      receipt == Window(key) || (slot.Some? && receipt == Window(slot.value))
    }

    // The retry data of the window, new for a new one.
    function Previous(key: WindowKey, now: int): Run
      reads this
    {
      if run.Some? && run.value.key == key then run.value else Run(key, now, 0, false, false)
    }

    /** Starts a run of the open window exactly when it is neither completed nor
        running, its retry time has come, and it has runs left or one to resume;
        only a fresh run is counted, so at most three are. `changed` says that the policy
        is another one than the window was taken from. */
    method BeginWindow(key: WindowKey, slot: Option<WindowKey>, now: int, changed: bool)
      returns (started: bool, wasPending: bool)
      requires Valid()
      modifies `run
      ensures Valid()
      ensures started <==>
        && !blocked && !changed && receipt != Window(key) && (slot.Some? ==> receipt != Window(slot.value))
        && (old(run).Some? && old(run).value.key == key ==>
              var p := old(run).value; !p.running && p.next <= now && (p.attempts < MAX_RUNS || p.pending))
      ensures started && old(run).Some? && old(run).value.key == key ==>
        var p := old(run).value;
        && wasPending == p.pending
        && run == Some(p.(running := true, attempts := if p.pending then p.attempts else p.attempts + 1))
      ensures started && !(old(run).Some? && old(run).value.key == key) ==>
        !wasPending && run == Some(Run(key, now, 1, true, false))
      ensures run.Some? ==> run.value.attempts <= 3
      ensures !started ==> run == old(run) && !wasPending
    {
      if blocked || changed || IsDone(key, slot) {
        return false, false;
      }
      var previous := Previous(key, now);
      if previous.running || (previous.attempts >= MAX_RUNS && !previous.pending) || now < previous.next {
        return false, false;
      }
      wasPending := previous.pending;
      if !previous.pending {
        previous := previous.(attempts := previous.attempts + 1);
      }
      run := Some(previous.(running := true));
      started := true;
    }

    /** Ends a run: a completed window is recorded unless the slot still holds an
        attempt at a version that is not running. `stopped` says that the context was
        canceled or the policy changed meanwhile. */
    method EndWindow(done: bool, pending: bool, started: int, stopped: bool, w: Write) returns (recorded: bool)
      requires Valid() && run.Some? && run.value.running
      modifies `run, `receipt, `disk, `blocked, `history
      ensures Valid()
      ensures var open := old(receipt.Attempt? && receipt.version != running);
        && (recorded <==> !old(blocked) && !stopped && done && !open && w.Lands?)
        && (recorded ==> receipt == disk == Window(old(run).value.key))
        && (!recorded ==> receipt == old(receipt))
        && (open || !done || stopped ==> history == old(history))
      ensures var r := old(run).value;
        run == Some(r.(running := false, pending := pending, next := started + RetryDelay(r.attempts)))
    {
      var previous := run.value.(running := false, pending := pending,
        next := started + RetryDelay(run.value.attempts));
      run := Some(previous);
      if stopped || blocked || !done || (receipt.Attempt? && receipt.version != running) {
        return false;
      }
      var before := receipt;
      receipt := Window(previous.key);
      recorded := Persist(Completed(previous.key), w);
      if !recorded {
        receipt := before;
      }
    }

    /** Hands a prepared package to the installer: the attempt is saved first, and
        only a definite refusal takes the record back. `w` and `back` are the two saves. */
    method RunAutoInstall(allowed: bool, w: Write, refused: bool, back: Write) returns (handed: bool)
      requires Valid()
      modifies `prepared, `receipt, `disk, `blocked, `history
      ensures Valid() && prepared.None?
      ensures var tried := allowed && old(!blocked && prepared.Some? &&
                                          (receipt == Attempt(prepared.value) ==> running == prepared.value));
        && (handed <==> tried && w.Lands? && !refused)
        && (!tried ==> disk == old(disk) && history == old(history) && blocked == old(blocked))
        && (tried && !w.Lost? ==>
             disk == if w.Lands? && refused && !back.Lost? then old(disk) else Attempt(old(prepared).value))
        && (tried && w.Lost? ==> disk == old(disk))
        && (tried ==> blocked == (!w.Lands? || (refused && !back.Lands?)))
      ensures handed ==>
        && receipt == disk
        && history == After(After(old(history), Recorded(old(prepared).value)), HandedOff(old(prepared).value))
      ensures !handed ==> receipt == old(receipt)
      ensures !handed && history != old(history) ==>
        var recorded := After(old(history), Recorded(old(prepared).value));
        var failed := After(After(recorded, HandedOff(old(prepared).value)), Refused(old(prepared).value));
        history == if !w.Lands? then recorded else if back.Lost? then failed else After(failed, PutBack)
    {
      var job := prepared;
      prepared := None;
      if job.None? || !allowed || AutoInstallFailed(job.value) || blocked {
        return false;
      }
      var version := job.value;
      var before := receipt;
      receipt := Attempt(version);
      var saved := Persist(Recorded(version), w);
      if !saved {
        receipt := before;
        return false;
      }
      history := After(history, HandedOff(version));
      if refused {
        history := After(history, Refused(version));
        receipt := before;
        var put := Persist(PutBack, back);
        return false;
      }
      return true;
    }
  }

  /** So whatever an updater is asked, what it did is a permitted history of its slot. */
  lemma UpdaterIsSound(u: Updater)
    requires u.Valid()
    ensures Safe(u.history) && Summarize(u.history).disk == u.disk && (!u.blocked ==> u.receipt == u.disk)
  {
  }

  // A hand-off of v, a restart, a record of w, a crash, and a hand-off of v again.
  function RecordedOnly(running: Version, v: Version, w: Version): History {
    var first := After(After(After(Start((running, Empty)), Booted(running)), Recorded(v)), HandedOff(v));
    After(After(first, Booted(running)), Recorded(w))
  }

  function ForgottenAttempt(running: Version, v: Version, w: Version): History {
    After(After(After(RecordedOnly(running, v, w), Booted(running)), Recorded(v)), HandedOff(v))
  }

  /** The process really does that: the record of an attempt is lost when another
      attempt is recorded and the process dies before that one is handed off. */
  method CrashForgetsAnAttempt(running: Version, v: Version, w: Version) returns (ghost h: History)
    requires running != v && running != w && v != w
    ensures Safe(h) && h == ForgottenAttempt(running, v, w)
  {
    var first := new Updater(Start((running, Empty)), Empty, running);
    first.prepared := Some(v);
    var handed := first.RunAutoInstall(true, Lands, false, Lands);
    var second := new Updater(first.history, first.disk, running);
    second.prepared := Some(w);
    handed := second.RunAutoInstall(true, Lands, false, Lands);
    ghost var cut := RecordedOnly(running, v, w);
    assert second.history == After(cut, HandedOff(w));
    SafeUpTo(cut, second.history);
    var third := new Updater(cut, Attempt(w), running);
    third.prepared := Some(v);
    handed := third.RunAutoInstall(true, Lands, false, Lands);
    h := third.history;
  }

  /** The first version is then handed off twice although it was never refused,
      never ran, and no other version was handed off in between. */
  lemma ForgottenAttemptIsHandedOffTwice(running: Version, v: Version, w: Version)
    requires running != v && running != w && v != w
    ensures var h := ForgottenAttempt(running, v, w);
            && h.event == HandedOff(v) && Happened(h.past, HandedOff(v))
            && !Happened(h, Refused(v)) && !Happened(h, Booted(v)) && !Happened(h, HandedOff(w))
  {
    var h0 := After(Start((running, Empty)), Booted(running));
    var h1 := After(After(h0, Recorded(v)), HandedOff(v));
    var h2 := RecordedOnly(running, v, w);
    assert Happened(h1, HandedOff(v));
    assert Happened(h2, HandedOff(v));
    forall e | e == Refused(v) || e == Booted(v) || e == HandedOff(w)
      ensures !Happened(ForgottenAttempt(running, v, w), e) {
      assert !Happened(h0, e);
      assert !Happened(h1, e);
      assert !Happened(h2, e);
      assert !Happened(After(h2, Booted(running)), e);
    }
    assert Happened(After(h2, Booted(running)), HandedOff(v));
  }
}

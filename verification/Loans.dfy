/** The device scope of one round owns a physical review and may lend it once.
    Every operation is one critical section, so a sequence of operations is an
    interleaving of the owner, the users and the borrower. */
module Loans {
  // The scope's fields, with what happened to the review: how often it was closed
  // and how many loans were granted.
  datatype Loan = Loan(
    acquired: bool,    // there is a review
    closed: bool,
    invalid: bool,
    borrowed: bool,
    borrowUsed: bool,
    released: bool,    // the borrower's once-only release has run
    closes: nat,
    grants: nat)

  datatype Op =
    | Use(sameIntent: bool, before: bool, leaf: bool, after: bool)
    | Borrow(observed: bool, passes: bool)
    | Check(passes: bool)   // the borrower's own check of the scope
    | Release
    | Close

  function Fresh(acquired: bool): Loan {
    Loan(acquired, false, false, false, false, false, 0, 0)
  }

  predicate Live(s: Loan) {
    !s.closed && !s.invalid
  }

  // A check of a live scope that does not pass invalidates it.
  function Checked(s: Loan, passes: bool): Loan {
    if Live(s) && !passes then s.(invalid := true) else s
  }

  /** The scope after an operation, and whether the operation succeeded. */
  function Step(s: Loan, op: Op): (Loan, bool) {
    match op
    case Use(sameIntent, before, leaf, after) =>
      if !sameIntent then (s.(invalid := true), false)
      else (Checked(Checked(s, before), after), Live(s) && before && leaf && after)
    case Borrow(observed, passes) =>
      if !s.acquired || !observed || s.borrowUsed then (s, false)
      else if Live(s) && passes then (s.(borrowed := true, borrowUsed := true, grants := s.grants + 1), true)
      else (Checked(s, passes), false)
    case Check(passes) => (Checked(s, passes), Live(s) && passes)
    case Release =>
      if !s.borrowUsed || s.released then (s, false)
      else (s.(borrowed := false, released := true, closes := s.closes + if s.closed then 1 else 0), true)
    case Close =>
      if s.closed then (s, false)
      else (s.(closed := true, closes := s.closes + if s.acquired && !s.borrowed then 1 else 0), true)
  }

  function Run(s: Loan, ops: seq<Op>): Loan {
    if |ops| == 0 then s else Step(Run(s, ops[..|ops| - 1]), ops[|ops| - 1]).0
  }

  /** Closed exactly when the owner has closed and no loan is out; one loan at most. */
  ghost predicate Sound(s: Loan) {
    && s.closes == (if s.acquired && s.closed && !s.borrowed then 1 else 0)
    && s.grants == (if s.borrowUsed then 1 else 0)
    && s.borrowed == (s.borrowUsed && !s.released)
    && (s.released ==> s.borrowUsed) && (s.borrowUsed ==> s.acquired)
  }

  /** Over every interleaving: the review is closed at most once, never while it is
      on loan, and exactly once when both owner and borrower have finished; at most
      one loan is ever granted. */
  lemma {:induction false} ReviewClosedExactlyOnce(acquired: bool, ops: seq<Op>)
    ensures Sound(Run(Fresh(acquired), ops))
  {
    if |ops| > 0 {
      ReviewClosedExactlyOnce(acquired, ops[..|ops| - 1]);
    }
  }

  // An operation that ends the scope: the owner's close, a change of intent, or a
  // check of it that did not pass.
  predicate Ends(s: Loan, op: Op) {
    match op
    case Close => true
    case Use(sameIntent, before, _, after) => !sameIntent || !before || !after
    case Check(passes) => !passes
    case Borrow(observed, passes) => s.acquired && observed && !s.borrowUsed && !passes
    case Release => false
  }

  // Some operation of the run ended the scope.
  ghost predicate EverEnded(s: Loan, ops: seq<Op>) {
    |ops| > 0 &&
      (EverEnded(s, ops[..|ops| - 1]) || Ends(Run(s, ops[..|ops| - 1]), ops[|ops| - 1]))
  }

  /** A scope is live exactly as long as nothing has ended it. */
  lemma {:induction false} LiveExactly(s: Loan, ops: seq<Op>)
    requires Live(s)
    ensures Live(Run(s, ops)) <==> !EverEnded(s, ops)
  {
    if |ops| > 0 {
      LiveExactly(s, ops[..|ops| - 1]);
    }
  }

  /** Over every interleaving, a use succeeds exactly when nothing has ended the scope,
      the intent is the same, both checks pass, and the leaf succeeds. */
  lemma UseSucceedsExactly(acquired: bool, ops: seq<Op>, sameIntent: bool, before: bool, leaf: bool, after: bool)
    ensures Step(Run(Fresh(acquired), ops), Use(sameIntent, before, leaf, after)).1 <==>
            sameIntent && before && leaf && after && !EverEnded(Fresh(acquired), ops)
  {
    LiveExactly(Fresh(acquired), ops);
  }

  /** And a loan is granted exactly when there is a review, it was observed, none was
      granted before, and the check of a scope that nothing has ended passes. */
  lemma LentExactly(acquired: bool, ops: seq<Op>, observed: bool, passes: bool)
    ensures Step(Run(Fresh(acquired), ops), Borrow(observed, passes)).1 <==>
            acquired && observed && passes && Run(Fresh(acquired), ops).grants == 0 &&
            !EverEnded(Fresh(acquired), ops)
  {
    LiveExactly(Fresh(acquired), ops);
    ReviewClosedExactlyOnce(acquired, ops);
    RunKeepsAcquired(acquired, ops);
  }

  lemma StepKeepsAcquired(s: Loan, op: Op)
    ensures Step(s, op).0.acquired == s.acquired
  {
  }

  lemma {:induction false} RunKeepsAcquired(acquired: bool, ops: seq<Op>)
    ensures Run(Fresh(acquired), ops).acquired == acquired
  {
    if |ops| > 0 {
      RunKeepsAcquired(acquired, ops[..|ops| - 1]);
      StepKeepsAcquired(Run(Fresh(acquired), ops[..|ops| - 1]), ops[|ops| - 1]);
    }
  }

  lemma {:induction false} EndedStaysEnded(s: Loan, ops: seq<Op>)
    requires !Live(s)
    ensures !Live(Run(s, ops))
  {
    if |ops| > 0 {
      EndedStaysEnded(s, ops[..|ops| - 1]);
    }
  }

  lemma {:induction false} RunConcat(s: Loan, a: seq<Op>, b: seq<Op>)
    ensures Run(s, a + b) == Run(Run(s, a), b)
  {
    if |b| == 0 {
      assert a + b == a;
    } else {
      assert (a + b)[..|a + b| - 1] == a + b[..|b| - 1];
      RunConcat(s, a, b[..|b| - 1]);
    }
  }

  /** After Close, or after one failed check, no use and no loan succeeds again. */
  lemma NothingSucceedsAfterTheEnd(s: Loan, before: seq<Op>, end: Op, between: seq<Op>, op: Op)
    requires Ends(Run(s, before), end)
    requires op.Use? || op.Borrow? || op.Check?
    ensures !Step(Run(s, before + [end] + between), op).1
  {
    assert (before + [end])[..|before|] == before;
    RunConcat(s, before + [end], between);
    EndedStaysEnded(Run(s, before + [end]), between);
  }

  /** A loan outlives the owner's close, and the release then closes the review. */
  lemma LoanOutlivesTheOwner(s: Loan, passes: bool, between: seq<Op>)
    requires Sound(s) && s.borrowed && !s.closed
    requires forall op :: op in between ==> !op.Release?
    ensures Run(s, [Close] + between).closes == 0
    ensures Run(s, [Close] + between + [Release]).closes == 1
  {
    RunConcat(s, [Close], between);
    StillOnLoan(Step(s, Close).0, between);
    assert [Close][..0] == [];
    assert Run(s, [Close]) == Step(s, Close).0;
    assert ([Close] + between + [Release])[..|[Close] + between|] == [Close] + between;
  }

  lemma {:induction false} StillOnLoan(s: Loan, ops: seq<Op>)
    requires Sound(s) && s.borrowed && s.closed
    requires forall op :: op in ops ==> !op.Release?
    ensures var r := Run(s, ops); Sound(r) && r.borrowed && r.closed && r.borrowUsed && !r.released
  {
    if |ops| > 0 {
      StillOnLoan(s, ops[..|ops| - 1]);
    }
  }

  /** The scope itself: each method is the step it stands for, so the scope is always
      the run of the operations made on it. */
  class DeviceScope {
    const acquired: bool
    var closed: bool
    var invalid: bool
    var borrowed: bool
    var borrowUsed: bool
    var released: bool
    ghost var closes: nat
    ghost var grants: nat
    ghost var ops: seq<Op>

    ghost function View(): Loan
      reads this
    {
      Loan(acquired, closed, invalid, borrowed, borrowUsed, released, closes, grants)
    }

    ghost predicate Valid()
      reads this
    {
      View() == Run(Fresh(acquired), ops)
    }

    constructor (hasReview: bool)
      ensures Valid() && acquired == hasReview && ops == []
    {
      acquired := hasReview;
      closed, invalid, borrowed, borrowUsed, released := false, false, false, false, false;
      closes, grants, ops := 0, 0, [];
    }

    // The operation that was made, once its effect is there.
    ghost method Note(before: Loan, op: Op)
      requires before == Run(Fresh(acquired), ops) && View() == Step(before, op).0
      modifies `ops
      ensures Valid() && ops == old(ops) + [op]
    {
      assert (ops + [op])[..|ops|] == ops;
      ops := ops + [op];
    }

    method Examine(passes: bool) returns (ok: bool)
      modifies `invalid
      ensures View() == Checked(old(View()), passes) && ok == (Live(old(View())) && passes)
    {
      if closed || invalid {
        return false;
      }
      if !passes {
        invalid := true;
      }
      return passes;
    }

    method Current(passes: bool) returns (ok: bool)
      requires Valid()
      modifies `invalid, `ops
      ensures Valid() && ops == old(ops) + [Check(passes)]
      ensures ok <==> !closed && !old(invalid) && passes
      ensures invalid == (old(invalid) || (!closed && !passes))
    {
      ghost var before := View();
      ok := Examine(passes);
      Note(before, Check(passes));
    }

    method UseScope(sameIntent: bool, before: bool, leaf: bool, after: bool) returns (ok: bool)
      requires Valid()
      modifies `invalid, `ops
      ensures Valid() && ops == old(ops) + [Use(sameIntent, before, leaf, after)]
      ensures ok <==> sameIntent && !closed && !old(invalid) && before && leaf && after
      ensures invalid == (old(invalid) || !sameIntent || (!closed && !(before && after)))
    {
      ghost var was := View();
      if !sameIntent {
        invalid := true;
        ok := false;
      } else {
        ok := Examine(before);
        if ok {
          var again := Examine(after);
          ok := leaf && again;
        }
      }
      Note(was, Use(sameIntent, before, leaf, after));
    }

    method BorrowScope(observed: bool, passes: bool) returns (ok: bool)
      requires Valid()
      modifies `invalid, `borrowed, `borrowUsed, `grants, `ops
      ensures Valid() && ops == old(ops) + [Borrow(observed, passes)]
      ensures ok <==> acquired && observed && !old(borrowUsed) && !closed && !old(invalid) && passes
      ensures borrowed == (old(borrowed) || ok) && borrowUsed == (old(borrowUsed) || ok)
      ensures grants == old(grants) + if ok then 1 else 0
      ensures invalid == (old(invalid) || (acquired && observed && !old(borrowUsed) && !closed && !passes))
    {
      ghost var was := View();
      ok := false;
      if acquired && observed && !borrowUsed {
        ok := Examine(passes);
        if ok {
          borrowUsed, borrowed := true, true;
          grants := grants + 1;
        }
      }
      Note(was, Borrow(observed, passes));
    }

    method ReleaseLoan() returns (ran: bool)
      requires Valid()
      modifies `borrowed, `released, `closes, `ops
      ensures Valid() && ops == old(ops) + [Release]
      ensures ran == Step(old(View()), Release).1
      ensures ran <==> old(borrowUsed) && !old(released)
      ensures released == (old(released) || ran) && borrowed == (old(borrowed) && !ran)
      ensures closes == old(closes) + if ran && closed then 1 else 0
    {
      ghost var was := View();
      ran := borrowUsed && !released;
      if ran {
        released, borrowed := true, false;
        if closed {
          closes := closes + 1;
        }
      }
      Note(was, Release);
    }

    method CloseScope() returns (ran: bool)
      requires Valid()
      modifies `closed, `closes, `ops
      ensures Valid() && ops == old(ops) + [Close]
      ensures ran == Step(old(View()), Close).1
      ensures closed && (ran <==> !old(closed))
      ensures closes == old(closes) + if ran && acquired && !borrowed then 1 else 0
    {
      ghost var was := View();
      ran := !closed;
      if ran {
        closed := true;
        if !borrowed && acquired {
          closes := closes + 1;
        }
      }
      Note(was, Close);
    }
  }

  /** So whatever calls are made on the scope, in any order, its review is closed at
      most once, never on loan, and lent at most once. */
  lemma ScopeIsSound(d: DeviceScope)
    requires d.Valid()
    ensures Sound(d.View())
  {
    ReviewClosedExactlyOnce(d.acquired, d.ops);
  }
}

/** Runs as histories: what happened, last event last. A crash leaves a prefix. */
module Histories {
  datatype Trace<+S, +E> = Start(initial: S) | After(past: Trace<S, E>, event: E)

  ghost predicate IsPrefix<S, E>(p: Trace<S, E>, h: Trace<S, E>) {
    p == h || (h.After? && IsPrefix(p, h.past))
  }

  /** Every event of the history was permitted by what came before it. */
  ghost predicate Permitted<S, E>(may: (Trace<S, E>, E) -> bool, h: Trace<S, E>) {
    h.After? ==> Permitted(may, h.past) && may(h.past, h.event)
  }

  lemma {:induction false} PermittedUpTo<S, E>(may: (Trace<S, E>, E) -> bool, p: Trace<S, E>, h: Trace<S, E>)
    requires Permitted(may, h) && IsPrefix(p, h)
    ensures Permitted(may, p)
  {
    if p != h {
      PermittedUpTo(may, p, h.past);
    }
  }

  lemma {:induction false} PrefixIsTransitive<S, E>(p: Trace<S, E>, q: Trace<S, E>, h: Trace<S, E>)
    requires IsPrefix(p, q) && IsPrefix(q, h)
    ensures IsPrefix(p, h)
  {
    if q != h {
      PrefixIsTransitive(p, q, h.past);
    }
  }

  /** Some event of a kind happened after `first`, up to `last`. */
  ghost predicate Between<S, E>(first: Trace<S, E>, last: Trace<S, E>, what: E -> bool)
    requires IsPrefix(first, last)
  {
    first != last && (what(last.event) || Between(first, last.past, what))
  }

  /** The history without its last n events: where a crash may have cut it. */
  function Cut<S, E>(h: Trace<S, E>, n: nat): Trace<S, E> {
    if n == 0 || h.Start? then h else Cut(h.past, n - 1)
  }

  lemma {:induction false} CutIsPrefix<S, E>(h: Trace<S, E>, n: nat)
    ensures IsPrefix(Cut(h, n), h)
  {
    if n > 0 && h.After? {
      CutIsPrefix(h.past, n - 1);
    }
  }
}

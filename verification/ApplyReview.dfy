/** The reviewed manual application: while an adapter's commit is being checked it may
    have consumed its own staged files, and only a complete guard that accepted it
    makes that permanent. The settings expected by the guards move only at a commit, to
    the image read back after it, and never leave the reviewed revision. */
module ApplyReview {
  import opened Basics
  import opened Histories

  type Adapter = int
  const DNS: Adapter := 0   // dns-scoped

  datatype Config = Config(revision: nat, image: int)

  // What the engine keeps in place of a reviewed draft: None when it cannot be read.
  datatype View = Staged(hash: int) | Live

  datatype Draft = Draft(adapter: Adapter, file: int, hash: int)

  // What the DNS owner answers now for a reviewed selection and for its receipt.
  datatype Selection = Selection(asReviewed: bool, committed: bool)

  // Everything a check reads, at one moment.
  datatype Facts = Facts(
    config: Config,
    catalogue: int,
    profiles: map<int, int>,          // DNS profile identities
    selections: map<int, Selection>,  // by service
    generation: Option<nat>,          // of the node registry
    proofs: map<int, int>,            // current node proofs, by service
    drafts: map<(Adapter, int), View>)

  datatype Binding = Binding(
    cfg: Config,
    catalogue: int,
    profiles: map<int, int>,
    services: set<int>,               // with a reviewed DNS selection
    generation: Option<nat>,          // Some when a route needs a node
    routes: map<int, int>,            // routes to single nodes, by service
    wan: Option<int>,                 // the reviewed network, when there is one
    drafts: seq<Draft>)

  // ---- what a check of the reviewed sources accepts ----

  /** A draft is still the reviewed one, or its adapter has taken it over. */
  predicate DraftOK(d: Draft, f: Facts, announced: set<Adapter>) {
    && (d.adapter, d.file) in f.drafts
    && match f.drafts[(d.adapter, d.file)]
       case Staged(hash) => hash == d.hash
       case Live => d.adapter in announced
  }

  predicate SelectionOK(service: int, f: Facts, announced: set<Adapter>) {
    && service in f.selections
    && if DNS in announced then f.selections[service].committed else f.selections[service].asReviewed
  }

  ghost predicate SourcesOK(b: Binding, expected: Config, f: Facts, announced: set<Adapter>) {
    && f.config == expected && f.catalogue == b.catalogue
    && (forall p :: p in b.profiles ==> p in f.profiles && f.profiles[p] == b.profiles[p])
    && (forall s :: s in b.services ==> SelectionOK(s, f, announced))
    && (b.generation.Some? ==>
          && f.generation == b.generation
          && forall s :: s in b.routes ==> s in f.proofs && f.proofs[s] == b.routes[s])
    && forall d :: d in b.drafts ==> DraftOK(d, f, announced)
  }

  // ---- histories ----

  datatype Event =
    | Accepted(facts: Facts, committing: Option<Adapter>)   // a complete guard, with its last facts
    | Adopted(config: Config)                               // the image read back after the commit

  type History = Trace<Binding, Event>

  datatype Summary = Summary(expected: Config, announced: set<Adapter>)

  function With(announced: set<Adapter>, committing: Option<Adapter>): set<Adapter> {
    if committing.Some? then announced + {committing.value} else announced
  }

  function Summarize(b: Binding, h: History): Summary {
    match h
    case Start(_) => Summary(b.cfg, {})
    case After(past, e) =>
      var s := Summarize(b, past);
      match e
      case Accepted(_, committing) => s.(announced := With(s.announced, committing))
      case Adopted(config) => s.(expected := config)
  }

  ghost predicate StepOK(b: Binding, s: Summary, e: Event) {
    match e
    case Accepted(facts, committing) => SourcesOK(b, s.expected, facts, With(s.announced, committing))
    case Adopted(config) => config.revision == s.expected.revision
  }

  ghost function May(b: Binding): (History, Event) -> bool {
    (p: History, e: Event) => StepOK(b, Summarize(b, p), e)
  }

  ghost predicate Safe(b: Binding, h: History) {
    Permitted(May(b), h)
  }

  lemma SafeUpTo(b: Binding, p: History, h: History)
    requires Safe(b, h) && IsPrefix(p, h)
    ensures Safe(b, p)
  {
    PermittedUpTo(May(b), p, h);
  }

  ghost predicate AcceptedFor(h: History, a: Adapter) {
    h.After? && ((h.event.Accepted? && h.event.committing == Some(a)) || AcceptedFor(h.past, a))
  }

  /** An adapter counts as committed exactly when a complete guard accepted its commit. */
  lemma {:induction false} AnnouncedExactly(b: Binding, h: History, a: Adapter)
    ensures a in Summarize(b, h).announced <==> AcceptedFor(h, a)
  {
    if h.After? {
      AnnouncedExactly(b, h.past, a);
    }
  }

  lemma {:induction false} RevisionNeverMoves(b: Binding, h: History)
    requires Safe(b, h)
    ensures Summarize(b, h).expected.revision == b.cfg.revision
  {
    if h.After? {
      RevisionNeverMoves(b, h.past);
    }
  }

  /** Over a whole run: every accepted guard saw the settings at the reviewed revision,
      and every reviewed draft either still staged as reviewed or taken over by an
      adapter whose commit this guard or an earlier accepted one was about. */
  lemma DraftsAreConsumedOnlyByTheirAdapter(b: Binding, p: History, facts: Facts, committing: Option<Adapter>,
                                            h: History, d: Draft)
    requires Safe(b, h) && IsPrefix(After(p, Accepted(facts, committing)), h) && d in b.drafts
    ensures facts.config.revision == b.cfg.revision
    ensures (d.adapter, d.file) in facts.drafts
    ensures var v := facts.drafts[(d.adapter, d.file)];
            v == Staged(d.hash) || (v.Live? && (committing == Some(d.adapter) || AcceptedFor(p, d.adapter)))
  {
    SafeUpTo(b, After(p, Accepted(facts, committing)), h);
    RevisionNeverMoves(b, p);
    AnnouncedExactly(b, p, d.adapter);
  }

  /** A DNS selection is compared with its reviewed state until a guard is about the
      DNS adapter's commit, and with its committed state from then on. */
  lemma SelectionsSwitchOnce(b: Binding, p: History, facts: Facts, committing: Option<Adapter>, h: History, s: int)
    requires Safe(b, h) && IsPrefix(After(p, Accepted(facts, committing)), h) && s in b.services
    ensures s in facts.selections
    ensures if committing == Some(DNS) || AcceptedFor(p, DNS) then facts.selections[s].committed
        else facts.selections[s].asReviewed
  {
    SafeUpTo(b, After(p, Accepted(facts, committing)), h);
    AnnouncedExactly(b, p, DNS);
    assert SelectionOK(s, facts, With(Summarize(b, p).announced, committing));
  }

  ghost predicate AdoptedIn(h: History) {
    h.After? && (h.event.Adopted? || AdoptedIn(h.past))
  }

  lemma {:induction false} ExpectedUntilTheCommit(b: Binding, h: History)
    requires !AdoptedIn(h)
    ensures Summarize(b, h).expected == b.cfg
  {
    if h.After? {
      ExpectedUntilTheCommit(b, h.past);
    }
  }

  /** Every guard accepted before the commit saw the very settings that were reviewed. */
  lemma ReviewedUntilTheCommit(b: Binding, p: History, facts: Facts, committing: Option<Adapter>, h: History)
    requires Safe(b, h) && IsPrefix(After(p, Accepted(facts, committing)), h) && !AdoptedIn(p)
    ensures facts.config == b.cfg && facts.catalogue == b.catalogue
  {
    SafeUpTo(b, After(p, Accepted(facts, committing)), h);
    ExpectedUntilTheCommit(b, p);
  }

  // ---- the binding itself ----

  // The outside of one call: a canceled context, and the facts each read sees.
  datatype Reads = Reads(canceled: bool, first: Facts, wan: Option<int>, canceledByWan: bool, second: Facts,
                         canceledAtEnd: bool)

  datatype Verdict = Ok | Canceled | Changed | NetworkChanged

  datatype Written = Refused | Image(config: Config)

  /** When a whole guard accepts. */
  ghost predicate Accepts(b: Binding, expected: Config, announced: set<Adapter>, r: Reads) {
    && !r.canceled && !r.canceledAtEnd && SourcesOK(b, expected, r.first, announced)
    && (b.wan.Some? ==> !r.canceledByWan && r.wan == b.wan && SourcesOK(b, expected, r.second, announced))
  }

  class Review {
    const binding: Binding
    var cfg: Config
    var committed: set<Adapter>
    ghost var history: History

    ghost predicate Valid()
      reads this
    {
      Safe(binding, history) && Summarize(binding, history) == Summary(cfg, committed)
    }

    constructor (b: Binding)
      ensures Valid() && binding == b && cfg == b.cfg && committed == {} && history == Start(b)
    {
      binding, cfg, committed, history := b, b.cfg, {}, Start(b);
    }

    method CheckSelections(f: Facts, committing: Option<Adapter>) returns (ok: bool)
      ensures ok <==> forall s :: s in binding.services ==> SelectionOK(s, f, With(committed, committing))
    {
      var rest := binding.services;
      while rest != {}
        invariant rest <= binding.services
        invariant forall s :: s in binding.services - rest ==> SelectionOK(s, f, With(committed, committing))
        decreases |rest|
      {
        var s := Pick(rest);
        var after := DNS in committed || committing == Some(DNS);
        if s !in f.selections || !(if after then f.selections[s].committed else f.selections[s].asReviewed) {
          assert !SelectionOK(s, f, With(committed, committing));
          return false;
        }
        assert SelectionOK(s, f, With(committed, committing));
        rest := rest - {s};
      }
      return true;
    }

    method CheckDrafts(f: Facts, committing: Option<Adapter>) returns (ok: bool)
      ensures ok <==> forall d :: d in binding.drafts ==> DraftOK(d, f, With(committed, committing))
    {
      var drafts := binding.drafts;
      for i := 0 to |drafts|
        invariant forall k :: 0 <= k < i ==> DraftOK(drafts[k], f, With(committed, committing))
      {
        var d := drafts[i];
        if (d.adapter, d.file) !in f.drafts {
          assert !DraftOK(d, f, With(committed, committing));
          return false;
        }
        var view := f.drafts[(d.adapter, d.file)];
        if view.Staged? {
          if view.hash != d.hash {
            assert !DraftOK(d, f, With(committed, committing));
            return false;
          }
        } else if d.adapter !in committed && committing != Some(d.adapter) {
          assert !DraftOK(d, f, With(committed, committing));
          return false;
        }
        assert DraftOK(d, f, With(committed, committing));
      }
      return true;
    }

    // Every entry of `wanted` is there with its value.
    method SameEntries(wanted: map<int, int>, now: map<int, int>) returns (ok: bool)
      ensures ok <==> forall k :: k in wanted ==> k in now && now[k] == wanted[k]
    {
      var rest := wanted.Keys;
      while rest != {}
        invariant rest <= wanted.Keys
        invariant forall k :: k in wanted && k !in rest ==> k in now && now[k] == wanted[k]
        decreases |rest|
      {
        var k := Pick(rest);
        if k !in now || now[k] != wanted[k] {
          return false;
        }
        rest := rest - {k};
      }
      return true;
    }

    /** Reads only: it accepts exactly the reviewed sources, and announces nothing. */
    method CheckReviewedSources(f: Facts, committing: Option<Adapter>) returns (ok: bool)
      ensures ok <==> SourcesOK(binding, cfg, f, With(committed, committing))
    {
      if f.config != cfg || f.catalogue != binding.catalogue {
        return false;
      }
      var profiles := SameEntries(binding.profiles, f.profiles);
      if !profiles {
        return false;
      }
      var selections := CheckSelections(f, committing);
      if !selections {
        return false;
      }
      if binding.generation.Some? {
        if f.generation != binding.generation {
          return false;
        }
        var proofs := SameEntries(binding.routes, f.proofs);
        if !proofs {
          return false;
        }
      }
      ok := CheckDrafts(f, committing);
    }

    /** The whole guard. The network read may block, so the sources are read again
        after it; the last facts read are the ones accepted. A guard that does not
        accept changes nothing. */
    method Guard(committing: Option<Adapter>, r: Reads) returns (v: Verdict)
      requires Valid()
      modifies `committed, `history
      ensures Valid()
      ensures v.Ok? <==> Accepts(binding, cfg, With(old(committed), committing), r)
      ensures v.Ok? ==> committed == With(old(committed), committing)
      ensures v.Ok? ==>
          history == After(old(history), Accepted(if binding.wan.Some? then r.second else r.first, committing))
      ensures !v.Ok? ==> committed == old(committed) && history == old(history)
    {
      if r.canceled {
        return Canceled;
      }
      var ok := CheckReviewedSources(r.first, committing);
      if !ok {
        return Changed;
      }
      if binding.wan.Some? {
        if r.canceledByWan {
          return Canceled;
        }
        if r.wan != binding.wan {
          return NetworkChanged;
        }
        ok := CheckReviewedSources(r.second, committing);
        if !ok {
          return Changed;
        }
      }
      if r.canceledAtEnd {
        return Canceled;
      }
      history := After(history, Accepted(if binding.wan.Some? then r.second else r.first, committing));
      committed := With(committed, committing);
      return Ok;
    }

    /** The commit: a complete guard, the store's write at the reviewed revision, and
        the image read back becomes what later guards expect. `written` is what the
        store did and then answered; it may belong to a later writer. */
    method Commit(committing: Option<Adapter>, r: Reads, written: Written) returns (v: Verdict)
      requires Valid()
      modifies `cfg, `committed, `history
      ensures Valid()
      ensures v.Ok? <==>
        && Accepts(binding, old(cfg), With(old(committed), committing), r)
        && written.Image? && written.config.revision == old(cfg).revision
      ensures v.Ok? ==> cfg == written.config && history.After? && history.event == Adopted(cfg)
      ensures !v.Ok? ==> cfg == old(cfg)
      ensures committed == if Accepts(binding, old(cfg), With(old(committed), committing), r)
          then With(old(committed), committing) else old(committed)
    {
      v := Guard(committing, r);
      if !v.Ok? {
        return v;
      }
      if written.Refused? {
        return Changed;
      }
      if written.config.revision != cfg.revision {
        return Changed;
      }
      cfg := written.config;
      history := After(history, Adopted(cfg));
      return Ok;
    }
  }

  /** So whatever is asked of it, in any order, an adapter counts as committed exactly when a
      complete guard accepted its commit, and the expected revision is the reviewed one. */
  lemma ReviewIsSound(r: Review)
    requires r.Valid()
    ensures Safe(r.binding, r.history) && r.cfg.revision == r.binding.cfg.revision
    ensures forall a :: a in r.committed <==> AcceptedFor(r.history, a)
  {
    RevisionNeverMoves(r.binding, r.history);
    forall a ensures a in r.committed <==> AcceptedFor(r.history, a) {
      AnnouncedExactly(r.binding, r.history, a);
    }
  }
}

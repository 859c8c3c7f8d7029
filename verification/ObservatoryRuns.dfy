/**
 What every run of records keeps: the observatory's store and registry are runs of their own
 operations, its statistics balance, and generation fencing happens before the store is asked.
 */
module ObservatoryRuns {
  import opened Domain
  import opened Sums
  import opened StoreSpec
  import opened StoreConservation
  import opened RegistrySpec
  import opened ObservatorySpec

  // ---------------------------------------------------------------------------
  // Factoring a run into a registry run and a store run
  // ---------------------------------------------------------------------------

  function DoEach(policy: Policy, r: Registry, cs: seq<Command>): Registry
    decreases |cs|
  {
    if cs == [] then r else DoEach(policy, Do(policy, r, cs[0]), cs[1..])
  }

  lemma {:induction false} DoneInTurn(policy: Policy, done: seq<Command>, cs: seq<Command>)
    ensures DoAll(policy, done + cs) == DoEach(policy, DoAll(policy, done), cs)
    decreases |cs|
  {
    if cs == [] {
      assert done + cs == done;
    } else {
      assert (done + [cs[0]])[..|done|] == done;
      assert done + cs == (done + [cs[0]]) + cs[1..];
      DoneInTurn(policy, done + [cs[0]], cs[1..]);
    }
  }

  lemma {:induction false} DoTwo(policy: Policy, r: Registry, a: Command, b: Command)
    ensures DoEach(policy, r, [a, b]) == Do(policy, Do(policy, r, a), b)
  {
    assert [a, b][1..] == [b] && [b][1..] == [];
    assert DoEach(policy, Do(policy, r, a), [b]) == DoEach(policy, Do(policy, Do(policy, r, a), b), []);
  }

  lemma {:induction false} DoThree(policy: Policy, r: Registry, a: Command, b: Command, c: Command)
    ensures DoEach(policy, r, [a, b, c]) == Do(policy, Do(policy, Do(policy, r, a), b), c)
  {
    assert [a, b, c][1..] == [b, c];
    DoTwo(policy, Do(policy, r, a), b, c);
  }

  lemma {:induction false} DoOne(policy: Policy, r: Registry, a: Command)
    ensures DoEach(policy, r, [a]) == Do(policy, r, a)
  {
    assert [a][1..] == [];
  }

  lemma {:induction false} EnsuredByMention(cfg: Config, r: Registry, o: Observation, text: string, now: TimePoint)
    ensures Do(cfg.policy, r, MentionLink(o.link, text, now)) == Ensured(cfg, r, o, text, now)
  {
  }

  lemma {:induction false} OfferNotes(cfg: Config, s: Observatory, r: Registry, o: Observation, now: TimePoint)
    ensures
      var accepted := OutcomeOf(cfg.policy, s.store, o, ContextOf(cfg, r, o)).accepted;
      Offer(cfg, s, r, o, now).registry
      == Do(cfg.policy, r, if accepted then CountAccepted(o.link, o.observedAt, now) else CountFenced(o.link))
  {
  }

  lemma {:induction false} ObservationFactors(cfg: Config, s: Observatory, o: Observation, text: string, now: TimePoint)
    ensures ApplyObservation(cfg, s, o, text, now).registry == DoEach(cfg.policy, s.registry, CommandsOf(cfg, s, Observed(o, text, now)))
  {
    var p, r, cs := cfg.policy, s.registry, CommandsOf(cfg, s, Observed(o, text, now));
    if Trusted(cfg, r, o) && Reachable(cfg, r, o, text) {
      EnsuredByMention(cfg, r, o, text, now);
      var known := Ensured(cfg, r, o, text, now);
      if GenerationSeen(known, o.link, o.provenance.generation).behind {
        DoTwo(p, r, cs[0], cs[1]);
      } else {
        OfferNotes(cfg, s, ObserveGeneration(known, o.link, o.provenance.generation), o, now);
        DoThree(p, r, cs[0], cs[1], cs[2]);
      }
    }
  }

  lemma {:induction false} RecordFactors(cfg: Config, s: Observatory, rec: Record)
    ensures ApplyRecord(cfg, s, rec).registry == DoEach(cfg.policy, s.registry, CommandsOf(cfg, s, rec))
    ensures
      var calls := CallsOf(cfg, s, rec);
      ApplyRecord(cfg, s, rec).store == if calls == [] then s.store else Apply(cfg.policy, s.store, calls[0])
  {
    var p, r, cs := cfg.policy, s.registry, CommandsOf(cfg, s, rec);
    match rec {
      case SourceRecorded(source) =>
        if |cs| == 1 { DoOne(p, r, cs[0]); } else { DoTwo(p, r, cs[0], cs[1]); }
      case LinkRecorded(facts, at) =>
        if |cs| == 1 { DoOne(p, r, cs[0]); } else { DoTwo(p, r, cs[0], cs[1]); }
      case Observed(o, text, at) => ObservationFactors(cfg, s, o, text, at);
    }
  }

  /**
   Every run of records is a run of registry operations and, beside it, a run of store calls: what
   is proved of all runs of either component holds inside the observatory.
   */
  lemma {:induction false} RunFactors(cfg: Config, recs: seq<Record>)
    ensures
      var s := Process(cfg, EMPTY_OBSERVATORY, recs);
      && s.registry == DoAll(cfg.policy, Commands(cfg, recs))
      && s.store == Run(cfg.policy, EMPTY_STORE, Calls(cfg, recs))
  {
    if recs != [] {
      var n := |recs| - 1;
      var s := Process(cfg, EMPTY_OBSERVATORY, recs[..n]);
      RunFactors(cfg, recs[..n]);
      RecordFactors(cfg, s, recs[n]);
      DoneInTurn(cfg.policy, Commands(cfg, recs[..n]), CommandsOf(cfg, s, recs[n]));
      var calls, before := CallsOf(cfg, s, recs[n]), Calls(cfg, recs[..n]);
      if calls == [] {
        assert before + calls == before;
      } else {
        assert (before + calls)[..|before|] == before && (before + calls)[|before|] == calls[0];
      }
    }
  }

  // ---------------------------------------------------------------------------
  // Conservation
  // ---------------------------------------------------------------------------

  function LinkAccepted(l: LinkRecord): nat { l.entry.accepted }

  ghost predicate StatsBalanced(s: Observatory) {
    && s.stats.submitted == s.stats.accepted + s.stats.fenced
    && s.stats.accepted == s.store.totalAccepted
    && s.stats.fenced == s.store.totalFenced + SumOver(s.ownFences, Itself)
    && s.stats.accepted == SumOver(s.registry.links, LinkAccepted)
  }

  /** Only the bookkeeping of an acceptance changes how many observations links have accepted. */
  lemma {:induction false} DoAccepted(policy: Policy, r: Registry, c: Command)
    ensures SumOver(Do(policy, r, c).links, LinkAccepted)
         == SumOver(r.links, LinkAccepted) + (if c.CountAccepted? && c.link in r.links then 1 else 0)
  {
    match c {
      case DeclareLink(facts, at) => RegisterAccepted(policy, r, facts, at);
      case MentionLink(link, name, at) => RegisterAccepted(policy, r, ImplicitFacts(link, name), at);
      case DeclareSource(_) =>
      case WithdrawSource(_) =>
      case _ =>
        if c.link in r.links {
          SumPut(r.links, c.link, Do(policy, r, c).links[c.link], LinkAccepted);
        }
    }
  }

  lemma {:induction false} RegisterAccepted(policy: Policy, r: Registry, facts: LinkFacts, at: TimePoint)
    ensures SumOver(RegisterLink(policy, r, facts, at).links, LinkAccepted) == SumOver(r.links, LinkAccepted)
  {
    SumPut(r.links, facts.id, NewLink(facts, at), LinkAccepted);
    if facts.id in r.links {
      SumPut(r.links, facts.id, Reregistered(r.links[facts.id], facts), LinkAccepted);
    }
  }

  lemma {:induction false} OwnFenceBalanced(s: Observatory, r: Registry, reason: FenceReason)
    requires StatsBalanced(s) && SumOver(r.links, LinkAccepted) == SumOver(s.registry.links, LinkAccepted)
    ensures StatsBalanced(OwnFence(s, r, reason))
  {
    SumPut<FenceReason, nat>(s.ownFences, reason, CountOf(s.ownFences, reason) + 1, Itself);
  }

  lemma {:induction false} StoreCounts(cfg: Config, s: Observatory, o: Observation, ctx: AcceptContext, now: TimePoint)
    ensures
      var outcome, after := OutcomeOf(cfg.policy, s.store, o, ctx), Accept(cfg.policy, s.store, o, ctx, now);
      && after.totalAccepted == s.store.totalAccepted + (if outcome.accepted then 1 else 0)
      && after.totalFenced == s.store.totalFenced + (if outcome.accepted then 0 else 1)
  {
    ApplyCounts(cfg.policy, s.store, Call(o, ctx, now), StoreFull);
  }

  /** The store refuses an observation from an untrusted source or of a disabled family. */
  lemma {:induction false} UntrustedIsRefused(cfg: Config, s: Observatory, o: Observation)
    requires !Trusted(cfg, s.registry, o)
    ensures !OutcomeOf(cfg.policy, s.store, o, ContextOf(cfg, s.registry, o)).accepted
    ensures OutcomeOf(cfg.policy, s.store, o, ContextOf(cfg, s.registry, o)).fence in {UnknownSource, UnsupportedProvenance, UnsupportedFamily}
  {
  }

  lemma {:induction false} OfferBalanced(cfg: Config, s: Observatory, r: Registry, o: Observation, now: TimePoint)
    requires StatsBalanced(s) && SumOver(r.links, LinkAccepted) == SumOver(s.registry.links, LinkAccepted) && o.link in r.links
    ensures StatsBalanced(Offer(cfg, s, r, o, now))
  {
    StoreCounts(cfg, s, o, ContextOf(cfg, r, o), now);
    DoAccepted(cfg.policy, r, CountAccepted(o.link, o.observedAt, now));
    DoAccepted(cfg.policy, r, CountFenced(o.link));
  }

  lemma {:induction false} ObservationBalanced(cfg: Config, s: Observatory, o: Observation, text: string, now: TimePoint)
    requires StatsBalanced(s)
    ensures StatsBalanced(ApplyObservation(cfg, s, o, text, now))
  {
    var p, r := cfg.policy, s.registry;
    if !Trusted(cfg, r, o) {
      UntrustedIsRefused(cfg, s, o);
      StoreCounts(cfg, s, o, ContextOf(cfg, r, o), now);
    } else if !Reachable(cfg, r, o, text) {
      OwnFenceBalanced(s, r, UnknownLink);
    } else {
      var known := Ensured(cfg, r, o, text, now);
      DoAccepted(p, r, MentionLink(o.link, text, now));
      DoAccepted(p, known, CountFenced(o.link));
      DoAccepted(p, known, SeeGeneration(o.link, o.provenance.generation));
      if GenerationSeen(known, o.link, o.provenance.generation).behind {
        OwnFenceBalanced(s, NoteFenced(known, o.link), GenerationBehind);
      } else {
        OfferBalanced(cfg, s, ObserveGeneration(known, o.link, o.provenance.generation), o, now);
      }
    }
  }

  lemma {:induction false} RecordBalanced(cfg: Config, s: Observatory, rec: Record)
    requires StatsBalanced(s)
    ensures StatsBalanced(ApplyRecord(cfg, s, rec))
  {
    match rec {
      case SourceRecorded(source) =>
      case LinkRecorded(facts, at) =>
        DoAccepted(cfg.policy, s.registry, DeclareLink(facts, at));
        DoAccepted(cfg.policy, RegisterLink(cfg.policy, s.registry, facts, at), SeeGeneration(facts.id, facts.generation));
      case Observed(o, text, at) => ObservationBalanced(cfg, s, o, text, at);
    }
  }

  /**
   Conservation over every run of records: submitted is accepted plus fenced, accepted is the
   store's total and the sum over links, and fenced is the store's total plus the observatory's own
   fences.
   */
  lemma {:induction false} RunStatsBalanced(cfg: Config, recs: seq<Record>)
    ensures StatsBalanced(Process(cfg, EMPTY_OBSERVATORY, recs))
  {
    if recs != [] {
      var n := |recs| - 1;
      RunStatsBalanced(cfg, recs[..n]);
      RecordBalanced(cfg, Process(cfg, EMPTY_OBSERVATORY, recs[..n]), recs[n]);
    }
  }

  // ---------------------------------------------------------------------------
  // Generations are fenced before the store is asked
  // ---------------------------------------------------------------------------

  /** Once observed without being behind, the generation is the current one. */
  lemma {:induction false} ObservedIsCurrent(r: Registry, id: LinkId, generation: GenerationId)
    requires id in r.links && !GenerationSeen(r, id, generation).behind
    ensures CurrentGeneration(ObserveGeneration(r, id, generation), id) == generation
  {
  }

  /** The store's own generation fence never fires below the observatory. */
  lemma {:induction false} CallIsCurrent(cfg: Config, s: Observatory, rec: Record)
    requires CallsOf(cfg, s, rec) != []
    ensures Answer(cfg.policy, s.store, CallsOf(cfg, s, rec)[0]).fence != GenerationBehind
  {
    var o, c := rec.observation, CallsOf(cfg, s, rec)[0];
    if !Trusted(cfg, s.registry, o) {
      UntrustedIsRefused(cfg, s, o);
    } else {
      ObservedIsCurrent(Ensured(cfg, s.registry, o, rec.linkText, rec.at), o.link, o.provenance.generation);
      var entry := EntryFence(cfg.policy, o, c.context);
      assert entry != GenerationBehind;
      if entry == FenceReason.None {
        SettledFenceKinds(cfg.policy, s.store, o, c.context.source.value.authority, StreamOf(s.store, o.provenance.source));
      }
    }
  }

  lemma {:induction false} SettledFenceKinds(policy: Policy, st: StoreState, o: Observation, authority: SourceAuthority, stream: StreamState)
    ensures SettledOutcome(policy, st, o, authority, Admit(stream, o)).fence != GenerationBehind
  {
    AdmitCounts(stream, o);
  }

  lemma {:induction false} StoreNeverFencesGenerations(cfg: Config, recs: seq<Record>)
    ensures CountOf(Process(cfg, EMPTY_OBSERVATORY, recs).store.fenceCounts, GenerationBehind) == 0
  {
    if recs != [] {
      var n := |recs| - 1;
      var s, rec := Process(cfg, EMPTY_OBSERVATORY, recs[..n]), recs[n];
      StoreNeverFencesGenerations(cfg, recs[..n]);
      RecordFactors(cfg, s, rec);
      if CallsOf(cfg, s, rec) != [] {
        CallIsCurrent(cfg, s, rec);
        ApplyCounts(cfg.policy, s.store, CallsOf(cfg, s, rec)[0], GenerationBehind);
      }
    }
  }

  /**
   Whether an observation gives its link a new current generation: the first one a link has, or one
   that is neither current nor retained.
   */
  predicate Adopts(cfg: Config, r: Registry, o: Observation, text: string) {
    var g := GenerationsOf(r, o.link);
    && Trusted(cfg, r, o) && Reachable(cfg, r, o, text)
    && (!g.hasGeneration || (g.current != o.provenance.generation && o.provenance.generation !in g.retired))
  }

  lemma {:induction false} NotesKeepGenerations(r: Registry, id: LinkId, at: TimePoint, now: TimePoint)
    ensures GenerationsOf(NoteAccepted(r, id, at, now), id) == GenerationsOf(r, id)
    ensures GenerationsOf(NoteFenced(r, id), id) == GenerationsOf(r, id)
  {
  }

  lemma {:induction false} EnsuredGenerations(cfg: Config, r: Registry, o: Observation, text: string, now: TimePoint)
    requires Reachable(cfg, r, o, text)
    ensures o.link in Ensured(cfg, r, o, text, now).links
    ensures GenerationsOf(Ensured(cfg, r, o, text, now), o.link) == GenerationsOf(r, o.link)
  {
  }

  /**
   For every observation, of a known link or of one registered implicitly: the link's current
   generation changes exactly when the source is trusted, the link reachable, and the generation the
   link's first or neither current nor retained, whatever the store then answers.
   */
  lemma {:induction false} GenerationMovesIff(cfg: Config, s: Observatory, o: Observation, text: string, now: TimePoint)
    ensures
      var was, next := GenerationsOf(s.registry, o.link), GenerationsOf(ApplyObservation(cfg, s, o, text, now).registry, o.link);
      NewlyCurrent(was, next) == if Adopts(cfg, s.registry, o, text) then [o.provenance.generation] else []
  {
    var r := s.registry;
    if Trusted(cfg, r, o) && Reachable(cfg, r, o, text) {
      EnsuredGenerations(cfg, r, o, text, now);
      var known := Ensured(cfg, r, o, text, now);
      NotesKeepGenerations(ObserveGeneration(known, o.link, o.provenance.generation), o.link, o.observedAt, now);
      NotesKeepGenerations(known, o.link, o.observedAt, now);
    }
  }

  /** Whatever is accepted belongs to the link's current generation when it is accepted. */
  lemma {:induction false} AcceptedIsCurrent(cfg: Config, s: Observatory, o: Observation, text: string, now: TimePoint)
    requires ApplyObservation(cfg, s, o, text, now).stats.accepted > s.stats.accepted
    ensures CurrentGeneration(ApplyObservation(cfg, s, o, text, now).registry, o.link) == o.provenance.generation
  {
    var known := Ensured(cfg, s.registry, o, text, now);
    ObservedIsCurrent(known, o.link, o.provenance.generation);
    NotesKeepGenerations(ObserveGeneration(known, o.link, o.provenance.generation), o.link, o.observedAt, now);
  }

  /** A trusted observation of its link's current generation is offered to the store as it stands. */
  lemma {:induction false} CurrentIsOffered(cfg: Config, s: Observatory, o: Observation, text: string, now: TimePoint)
    requires Trusted(cfg, s.registry, o) && o.link in s.registry.links
    requires GenerationsOf(s.registry, o.link).hasGeneration && GenerationsOf(s.registry, o.link).current == o.provenance.generation
    ensures ApplyObservation(cfg, s, o, text, now) == Offer(cfg, s, s.registry, o, now)
  {
    assert ObserveGeneration(s.registry, o.link, o.provenance.generation) == s.registry;
  }

  lemma {:induction false} OfferAccepted(cfg: Config, s: Observatory, o: Observation, now: TimePoint, ctx: AcceptContext)
    requires ctx == ContextOf(cfg, s.registry, o) && OutcomeOf(cfg.policy, s.store, o, ctx).accepted
    ensures
      var next := Offer(cfg, s, s.registry, o, now);
      next.registry == NoteAccepted(s.registry, o.link, o.observedAt, now) && next.store == Accept(cfg.policy, s.store, o, ctx, now)
  {
  }
}

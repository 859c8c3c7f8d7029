/**
 The observatory as an object over its registry and its store
 (src/runtime/observatory.cpp:172-185 and 257-435), proved against `ObservatorySpec`.
 */
module Observatory {
  import opened Domain
  import opened StoreSpec
  import opened RegistrySpec
  import opened ObservatorySpec
  import LinkRegistry
  import EvidenceStore

  class Observatory {
    const cfg: Config
    const registry: LinkRegistry.LinkRegistry
    const store: EvidenceStore.EvidenceStore
    var stats: Stats
    var ownFences: map<FenceReason, nat>

    ghost predicate Valid() {
      registry.policy == cfg.policy && store.policy == cfg.policy
    }

    function State(): ObservatorySpec.Observatory
      reads this, registry, store
    {
      ObservatorySpec.Observatory(registry.State(), store.State(), stats, ownFences)
    }

    constructor (cfg: Config)
      ensures Valid() && State() == EMPTY_OBSERVATORY && this.cfg == cfg
      ensures fresh(registry) && fresh(store)
    {
      this.cfg := cfg;
      registry := new LinkRegistry.LinkRegistry(cfg.policy);
      store := new EvidenceStore.EvidenceStore(cfg.policy);
      stats := Stats(0, 0, 0, 0, 0);
      ownFences := map[];
    }

    method CountOwnFence(reason: FenceReason)
      modifies this
      ensures ownFences == old(ownFences)[reason := CountOf(old(ownFences), reason) + 1]
      ensures stats == old(stats).(fenced := old(stats).fenced + 1)
    {
      ownFences := ownFences[reason := CountOf(ownFences, reason) + 1];
      stats := stats.(fenced := stats.fenced + 1);
    }

    /** Hands the store an observation it will refuse, so that the refusal is counted there. */
    method Refer(o: Observation, now: TimePoint)
      requires Valid()
      modifies this, store
      ensures store.State() == Accept(cfg.policy, old(store.State()), o, ContextOf(cfg, registry.State(), o), now)
      ensures
        var outcome := OutcomeOf(cfg.policy, old(store.State()), o, ContextOf(cfg, registry.State(), o));
        stats == if outcome.accepted then old(stats) else old(stats).(fenced := old(stats).fenced + 1)
      ensures ownFences == old(ownFences)
    {
      var outcome := store.Accept(o, ContextOf(cfg, registry.State(), o), now);
      if !outcome.accepted {
        stats := stats.(fenced := stats.fenced + 1);
      }
    }

    /** The store's verdict on an observation whose generation is already observed. */
    method OfferToStore(o: Observation, now: TimePoint, ghost was: ObservatorySpec.Observatory)
      requires Valid() && store.State() == was.store && ownFences == was.ownFences
      requires stats == was.stats.(submitted := was.stats.submitted + 1)
      modifies this, registry, store
      ensures State() == Offer(cfg, was, old(registry.State()), o, now)
    {
      var outcome := store.Accept(o, ContextOf(cfg, registry.State(), o), now);
      if !outcome.accepted {
        stats := stats.(fenced := stats.fenced + 1);
        registry.NoteFenced(o.link);
        return;
      }
      stats := stats.(accepted := stats.accepted + 1);
      registry.NoteAccepted(o.link, o.observedAt, now);
    }

    /** Finds the link, or registers it implicitly where the policy allows. */
    method EnsureLink(o: Observation, text: string, now: TimePoint) returns (known: bool)
      requires Valid()
      modifies registry
      ensures known == Reachable(cfg, old(registry.State()), o, text)
      ensures registry.State() == if known then Ensured(cfg, old(registry.State()), o, text, now) else old(registry.State())
      ensures known ==> o.link in registry.links
    {
      if o.link in registry.links {
        return true;
      }
      var status := registry.EnsureImplicitLink(o.link, text, now);
      return status == Success;
    }

    method ApplyObservation(o: Observation, text: string, now: TimePoint)
      requires Valid()
      modifies this, registry, store
      ensures State() == ObservatorySpec.ApplyObservation(cfg, old(State()), o, text, now)
    {
      stats := stats.(submitted := stats.submitted + 1);
      var id := o.provenance.source;
      if id !in registry.sources || registry.sources[id].retired || o.key.family !in cfg.families {
        Refer(o, now);
      } else {
        ApplyTrusted(o, text, now, old(State()));
      }
    }

    /** An enabled reading of a live source: the link, then its generation, then the store. */
    method ApplyTrusted(o: Observation, text: string, now: TimePoint, ghost was: ObservatorySpec.Observatory)
      requires Valid() && Trusted(cfg, registry.State(), o)
      requires State() == was.(stats := was.stats.(submitted := was.stats.submitted + 1))
      modifies this, registry, store
      ensures State() == ObservatorySpec.ApplyObservation(cfg, was, o, text, now)
    {
      var known := EnsureLink(o, text, now);
      if !known {
        CountOwnFence(UnknownLink);
        return;
      }
      ghost var ensured := registry.State();
      var seen := registry.ObserveGeneration(o.link, o.provenance.generation);
      if seen.behind {
        assert ensured.links[o.link := ensured.links[o.link]] == ensured.links;
        CountOwnFence(GenerationBehind);
        registry.NoteFenced(o.link);
        return;
      }
      OfferToStore(o, now, was);
    }

    method ApplySource(source: SourceRecord)
      requires Valid()
      modifies this, registry
      ensures State() == ObservatorySpec.ApplySource(cfg, old(State()), source)
    {
      var status := registry.RegisterSource(source.(registered := false, retired := false));
      if status != Success {
        stats := stats.(rejected := stats.rejected + 1);
        return;
      }
      if source.retired {
        var retired := registry.RetireSource(source.id);
      }
      stats := stats.(applied := stats.applied + 1);
    }

    method ApplyLink(facts: LinkFacts, now: TimePoint)
      requires Valid()
      modifies this, registry
      ensures State() == ObservatorySpec.ApplyLink(cfg, old(State()), facts, now)
    {
      var status := registry.RegisterLink(facts, now);
      if status != Success {
        stats := stats.(rejected := stats.rejected + 1);
        return;
      }
      stats := stats.(applied := stats.applied + 1);
      var seen := registry.ObserveGeneration(facts.id, facts.generation);
    }

    /** Applies the records of a batch in order. */
    method ApplyBatch(recs: seq<Record>)
      requires Valid()
      modifies this, registry, store
      ensures State() == Process(cfg, old(State()), recs)
    {
      var i := 0;
      ghost var before := State();
      while i < |recs|
        invariant 0 <= i <= |recs|
        invariant State() == Process(cfg, before, recs[..i])
      {
        match recs[i] {
          case SourceRecorded(source) => ApplySource(source);
          case LinkRecorded(facts, at) => ApplyLink(facts, at);
          case Observed(o, text, at) => ApplyObservation(o, text, at);
        }
        assert recs[..i + 1][..i] == recs[..i];
        i := i + 1;
      }
      assert recs[..|recs|] == recs;
    }
  }
}

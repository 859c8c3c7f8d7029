/**
 The registry as an object updated in place (src/store/link_registry.cpp), proved against
 `RegistrySpec`.
 */
module LinkRegistry {
  import opened Domain
  import opened Retirement
  import opened RegistrySpec

  class LinkRegistry {
    const policy: Policy
    var links: map<LinkId, LinkRecord>
    var sources: map<SourceId, SourceRecord>

    function State(): Registry
      reads this
    {
      Registry(links, sources)
    }

    constructor (policy: Policy)
      ensures State() == EMPTY_REGISTRY && this.policy == policy
    {
      this.policy := policy;
      links, sources := map[], map[];
    }

    method RegisterSource(record: SourceRecord) returns (status: Status)
      modifies this
      ensures status == RegisterSourceStatus(policy, old(State()), record)
      ensures State() == RegistrySpec.RegisterSource(policy, old(State()), record)
    {
      if !ValidId(record.id) || record.name == "" || |record.name| > MAX_NAME || record.provenance == ProvenanceClass.Unknown {
        return InvalidArgument;
      }
      if record.id in sources {
        var existing := sources[record.id];
        if existing.authority != record.authority || existing.provenance != record.provenance {
          return Conflict;
        }
        sources := sources[record.id := existing.(name := record.name, retired := false, registered := true)];
        return Success;
      }
      if |sources| >= policy.limits.maxSources {
        return CapacityExceeded;
      }
      sources := sources[record.id := record.(registered := true)];
      return Success;
    }

    method RetireSource(id: SourceId) returns (status: Status)
      modifies this
      ensures status == if id in old(sources) then Success else NotFound
      ensures State() == RegistrySpec.RetireSource(old(State()), id)
    {
      if id !in sources {
        return NotFound;
      }
      sources := sources[id := sources[id].(retired := true)];
      return Success;
    }

    /** Makes an unseen generation current, retiring the previous one; refuses a retained one. */
    method ObserveGeneration(id: LinkId, generation: GenerationId) returns (seen: GenerationObservation)
      modifies this
      ensures seen == GenerationSeen(old(State()), id, generation)
      ensures State() == RegistrySpec.ObserveGeneration(old(State()), id, generation)
    {
      seen := GenerationObservation(false, false, 0, generation);
      if id !in links {
        return seen.(behind := true);
      }
      var link := links[id];
      assert links[id := link] == links;
      var g := link.generations;
      if !g.hasGeneration {
        links := links[id := link.(generations := g.(hasGeneration := true, current := generation))];
        return seen.(changed := true);
      }
      if g.current == generation {
        return;
      }
      if generation in g.retired {
        return seen.(behind := true);
      }
      var retired := Trim(g.retired + [g.current], MAX_RETIRED_GENERATIONS);
      seen := seen.(changed := true, previous := g.current);
      links := links[id := link.(generations := g.(retired := retired, current := generation, changes := g.changes + 1))];
    }

    method RegisterLink(facts: LinkFacts, now: TimePoint) returns (status: Status)
      modifies this
      ensures status == RegisterLinkStatus(policy, old(State()), facts)
      ensures State() == RegistrySpec.RegisterLink(policy, old(State()), facts, now)
    {
      if ValidateFacts(facts) != Success {
        return ValidateFacts(facts);
      }
      if facts.id in links {
        if links[facts.id].entry.retired {
          return Conflict;
        }
        var declared := links[facts.id].entry.facts;
        var merged := Merged(declared, facts);
        if merged.generation != declared.generation {
          var seen := ObserveGeneration(facts.id, merged.generation);
          if seen.behind {
            assert links == old(links)[facts.id := old(links)[facts.id]] == old(links);
            return Conflict;
          }
        }
        var link := links[facts.id];
        links := links[facts.id := link.(entry := link.entry.(facts := merged))];
        return Success;
      }
      if |links| >= policy.limits.maxLinks {
        return CapacityExceeded;
      }
      links := links[facts.id := NewLink(facts, now)];
      return Success;
    }

    method RetireLink(id: LinkId) returns (status: Status)
      modifies this
      ensures status == if id in old(links) then Success else NotFound
      ensures State() == RegistrySpec.RetireLink(old(State()), id)
    {
      if id !in links {
        return NotFound;
      }
      links := links[id := links[id].(entry := links[id].entry.(retired := true))];
      return Success;
    }

    method EnsureImplicitLink(id: LinkId, name: string, now: TimePoint) returns (status: Status)
      modifies this
      ensures status == ImplicitStatus(policy, old(State()), id, name)
      ensures State() == EnsureImplicit(policy, old(State()), id, name, now)
    {
      if !policy.allowImplicitLinks {
        return NotFound;
      }
      if id in links {
        return if links[id].entry.retired then Conflict else Success;
      }
      status := RegisterLink(ImplicitFacts(id, name), now);
    }

    method NoteAccepted(id: LinkId, observedAt: TimePoint, acceptedAt: TimePoint)
      modifies this
      ensures State() == RegistrySpec.NoteAccepted(old(State()), id, observedAt, acceptedAt)
    {
      if id in links {
        var e := links[id].entry;
        var next := e.(accepted := e.accepted + 1);
        if !e.hasEvidence || observedAt > e.lastEvidenceAt {
          next := next.(lastEvidenceAt := observedAt);
        }
        if !e.hasEvidence || acceptedAt > e.lastAcceptedAt {
          next := next.(lastAcceptedAt := acceptedAt);
        }
        links := links[id := links[id].(entry := next.(hasEvidence := true))];
      }
    }

    method NoteFenced(id: LinkId)
      modifies this
      ensures State() == RegistrySpec.NoteFenced(old(State()), id)
    {
      if id in links {
        links := links[id := links[id].(entry := links[id].entry.(fenced := links[id].entry.fenced + 1))];
      }
    }

    method Restore(p: PersistedLink) returns (status: Status)
      modifies this
      ensures status == RestoreLinkStatus(policy, old(State()), p)
      ensures State() == RestoreLink(policy, old(State()), p)
    {
      if ValidateFacts(p.facts) != Success {
        return CorruptData;
      }
      if |links| >= policy.limits.maxLinks && p.facts.id !in links {
        return CapacityExceeded;
      }
      if |p.generations.retired| > MAX_RETIRED_GENERATIONS {
        return CapacityExceeded;
      }
      links := links[p.facts.id := LinkRecord(p.entry.(facts := p.facts), p.generations)];
      return Success;
    }
  }
}

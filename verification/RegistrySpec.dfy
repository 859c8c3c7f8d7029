/**
 The link and source registry as a value, and what runs of its operations keep
 (src/store/link_registry.cpp, src/domain/link.cpp:33-54).
 */
module RegistrySpec {
  import opened Domain
  import opened Retirement

  const MAX_RETIRED_GENERATIONS: nat := 32
  const MAX_NAME: nat := 128

  datatype GenerationState = GenerationState(
    current: GenerationId, hasGeneration: bool, retired: seq<GenerationId>, changes: nat)

  const NO_GENERATION: GenerationState := GenerationState(0, false, [], 0)

  datatype LinkEntry = LinkEntry(
    facts: LinkFacts, registeredAt: TimePoint, lastEvidenceAt: TimePoint, lastAcceptedAt: TimePoint,
    accepted: nat, fenced: nat, retired: bool, hasEvidence: bool)

  datatype LinkRecord = LinkRecord(entry: LinkEntry, generations: GenerationState)

  datatype Registry = Registry(links: map<LinkId, LinkRecord>, sources: map<SourceId, SourceRecord>)

  const EMPTY_REGISTRY: Registry := Registry(map[], map[])

  datatype Status = Success | InvalidArgument | OutOfRange | Conflict | CapacityExceeded | NotFound | CorruptData | VersionMismatch

  datatype GenerationObservation = GenerationObservation(
    changed: bool, behind: bool, previous: GenerationId, current: GenerationId)

  // ---------------------------------------------------------------------------
  // Generations
  // ---------------------------------------------------------------------------

  function GenerationsOf(r: Registry, id: LinkId): GenerationState {
    if id in r.links then r.links[id].generations else NO_GENERATION
  }

  function CurrentGeneration(r: Registry, id: LinkId): GenerationId {
    if GenerationsOf(r, id).hasGeneration then GenerationsOf(r, id).current else 0
  }

  predicate Superseded(g: GenerationState, generation: GenerationId) {
    g.hasGeneration && g.current != generation && generation in g.retired
  }

  function Advance(g: GenerationState, generation: GenerationId): GenerationState {
    if !g.hasGeneration then g.(hasGeneration := true, current := generation)
    else if g.current == generation || generation in g.retired then g
    else
      g.(retired := KeepLast(g.retired + [g.current], MAX_RETIRED_GENERATIONS), current := generation,
         changes := g.changes + 1)
  }

  function WithGenerations(r: Registry, id: LinkId, g: GenerationState): Registry
    requires id in r.links
  {
    r.(links := r.links[id := r.links[id].(generations := g)])
  }

  function ObserveGeneration(r: Registry, id: LinkId, generation: GenerationId): Registry {
    if id in r.links then WithGenerations(r, id, Advance(r.links[id].generations, generation)) else r
  }

  function GenerationSeen(r: Registry, id: LinkId, generation: GenerationId): GenerationObservation {
    if id !in r.links then GenerationObservation(false, true, 0, generation)
    else
      var g := r.links[id].generations;
      if !g.hasGeneration then GenerationObservation(true, false, 0, generation)
      else if g.current == generation then GenerationObservation(false, false, 0, generation)
      else if generation in g.retired then GenerationObservation(false, true, 0, generation)
      else GenerationObservation(true, false, g.current, generation)
  }

  // ---------------------------------------------------------------------------
  // Links
  // ---------------------------------------------------------------------------

  function ValidateFacts(f: LinkFacts): Status {
    if !ValidId(f.id) || f.name == "" then InvalidArgument
    else if |f.name| > MAX_NAME then OutOfRange
    else if f.capacityKnown && f.capacityInBps == 0 && f.capacityOutBps == 0 then InvalidArgument
    else if !f.capacityKnown && (f.capacityInBps != 0 || f.capacityOutBps != 0) then InvalidArgument
    else Success
  }

  /** A re-registration that names no generation keeps the declared one. */
  function Merged(existing: LinkFacts, facts: LinkFacts): LinkFacts {
    if ValidId(facts.generation) then facts else facts.(generation := existing.generation)
  }

  /** The record of a first registration. */
  function NewLink(facts: LinkFacts, now: TimePoint): LinkRecord {
    LinkRecord(
      LinkEntry(facts, now, 0, 0, 0, 0, false, false),
      if ValidId(facts.generation) then GenerationState(facts.generation, true, [], 0) else NO_GENERATION)
  }

  /** A re-registration under another generation passes through the same fence as an observation. */
  predicate Redeclares(was: LinkRecord, facts: LinkFacts) {
    Merged(was.entry.facts, facts).generation != was.entry.facts.generation
  }

  function Reregistered(was: LinkRecord, facts: LinkFacts): LinkRecord {
    var merged := Merged(was.entry.facts, facts);
    LinkRecord(was.entry.(facts := merged),
               if Redeclares(was, facts) then Advance(was.generations, merged.generation) else was.generations)
  }

  function RegisterLinkStatus(policy: Policy, r: Registry, facts: LinkFacts): Status {
    if ValidateFacts(facts) != Success then ValidateFacts(facts)
    else if facts.id in r.links then
      var was := r.links[facts.id];
      if was.entry.retired then Conflict
      else if Redeclares(was, facts) && Superseded(was.generations, Merged(was.entry.facts, facts).generation) then Conflict
      else Success
    else if |r.links| >= policy.limits.maxLinks then CapacityExceeded
    else Success
  }

  function RegisterLink(policy: Policy, r: Registry, facts: LinkFacts, now: TimePoint): Registry {
    if RegisterLinkStatus(policy, r, facts) != Success then r
    else if facts.id in r.links then r.(links := r.links[facts.id := Reregistered(r.links[facts.id], facts)])
    else r.(links := r.links[facts.id := NewLink(facts, now)])
  }

  function RetireLink(r: Registry, id: LinkId): Registry {
    if id in r.links then r.(links := r.links[id := r.links[id].(entry := r.links[id].entry.(retired := true))]) else r
  }

  function ImplicitFacts(id: LinkId, name: string): LinkFacts {
    LinkFacts(id, if |name| > MAX_NAME then name[..MAX_NAME] else name, 0, 0, 0, 0, LinkKind.Unknown, 0, false, 0, 0,
              ProvenanceClass.Unknown)
  }

  function ImplicitStatus(policy: Policy, r: Registry, id: LinkId, name: string): Status {
    if !policy.allowImplicitLinks then NotFound
    else if id in r.links then (if r.links[id].entry.retired then Conflict else Success)
    else RegisterLinkStatus(policy, r, ImplicitFacts(id, name))
  }

  function EnsureImplicit(policy: Policy, r: Registry, id: LinkId, name: string, now: TimePoint): Registry {
    if !policy.allowImplicitLinks || id in r.links then r else RegisterLink(policy, r, ImplicitFacts(id, name), now)
  }

  function Later(has: bool, was: TimePoint, candidate: TimePoint): TimePoint {
    if !has || candidate > was then candidate else was
  }

  function NoteAccepted(r: Registry, id: LinkId, observedAt: TimePoint, acceptedAt: TimePoint): Registry {
    if id !in r.links then r
    else
      var e := r.links[id].entry;
      r.(links := r.links[id := r.links[id].(
        entry := e.(accepted := e.accepted + 1, hasEvidence := true,
                    lastEvidenceAt := Later(e.hasEvidence, e.lastEvidenceAt, observedAt),
                    lastAcceptedAt := Later(e.hasEvidence, e.lastAcceptedAt, acceptedAt)))])
  }

  function NoteFenced(r: Registry, id: LinkId): Registry {
    if id !in r.links then r
    else
      var e := r.links[id].entry;
      r.(links := r.links[id := r.links[id].(entry := e.(fenced := e.fenced + 1))])
  }

  // ---------------------------------------------------------------------------
  // Sources
  // ---------------------------------------------------------------------------

  function RegisterSourceStatus(policy: Policy, r: Registry, s: SourceRecord): Status {
    if !ValidId(s.id) || s.name == "" || |s.name| > MAX_NAME || s.provenance == ProvenanceClass.Unknown then InvalidArgument
    else if s.id in r.sources then
      (if r.sources[s.id].authority != s.authority || r.sources[s.id].provenance != s.provenance then Conflict else Success)
    else if |r.sources| >= policy.limits.maxSources then CapacityExceeded
    else Success
  }

  function RegisterSource(policy: Policy, r: Registry, s: SourceRecord): Registry {
    if RegisterSourceStatus(policy, r, s) != Success then r
    else if s.id in r.sources then
      r.(sources := r.sources[s.id := r.sources[s.id].(name := s.name, retired := false, registered := true)])
    else r.(sources := r.sources[s.id := s.(registered := true)])
  }

  function RetireSource(r: Registry, id: SourceId): Registry {
    if id in r.sources then r.(sources := r.sources[id := r.sources[id].(retired := true)]) else r
  }

  // ---------------------------------------------------------------------------
  // Restoring
  // ---------------------------------------------------------------------------

  datatype PersistedLink = PersistedLink(facts: LinkFacts, entry: LinkEntry, generations: GenerationState)

  function RestoreLinkStatus(policy: Policy, r: Registry, p: PersistedLink): Status {
    if ValidateFacts(p.facts) != Success then CorruptData
    else if |r.links| >= policy.limits.maxLinks && p.facts.id !in r.links then CapacityExceeded
    else if |p.generations.retired| > MAX_RETIRED_GENERATIONS then CapacityExceeded
    else Success
  }

  function RestoreLink(policy: Policy, r: Registry, p: PersistedLink): Registry {
    if RestoreLinkStatus(policy, r, p) != Success then r
    else r.(links := r.links[p.facts.id := LinkRecord(p.entry.(facts := p.facts), p.generations)])
  }

  // ---------------------------------------------------------------------------
  // Runs
  // ---------------------------------------------------------------------------

  datatype Command =
    | DeclareLink(facts: LinkFacts, at: TimePoint)
    | WithdrawLink(link: LinkId)
    | MentionLink(link: LinkId, name: string, at: TimePoint)
    | SeeGeneration(link: LinkId, generation: GenerationId)
    | CountAccepted(link: LinkId, observedAt: TimePoint, acceptedAt: TimePoint)
    | CountFenced(link: LinkId)
    | DeclareSource(source: SourceRecord)
    | WithdrawSource(sourceId: SourceId)

  function Do(policy: Policy, r: Registry, c: Command): Registry {
    match c
    case DeclareLink(facts, at) => RegisterLink(policy, r, facts, at)
    case WithdrawLink(link) => RetireLink(r, link)
    case MentionLink(link, name, at) => EnsureImplicit(policy, r, link, name, at)
    case SeeGeneration(link, generation) => ObserveGeneration(r, link, generation)
    case CountAccepted(link, observedAt, acceptedAt) => NoteAccepted(r, link, observedAt, acceptedAt)
    case CountFenced(link) => NoteFenced(r, link)
    case DeclareSource(source) => RegisterSource(policy, r, source)
    case WithdrawSource(source) => RetireSource(r, source)
  }

  function DoAll(policy: Policy, cs: seq<Command>): Registry {
    if cs == [] then EMPTY_REGISTRY else Do(policy, DoAll(policy, cs[..|cs| - 1]), cs[|cs| - 1])
  }

  /** The generation that became current in a step, if one did. */
  function NewlyCurrent(was: GenerationState, next: GenerationState): seq<GenerationId> {
    if next.hasGeneration && (!was.hasGeneration || was.current != next.current) then [next.current] else []
  }

  /** The generations a link has had, oldest first. */
  function Adopted(policy: Policy, cs: seq<Command>, id: LinkId): seq<GenerationId> {
    if cs == [] then []
    else
      var before := cs[..|cs| - 1];
      Adopted(policy, before, id)
      + NewlyCurrent(GenerationsOf(DoAll(policy, before), id), GenerationsOf(DoAll(policy, cs), id))
  }

  /** Every operation leaves a link's generations alone, or advances them once. */
  lemma {:induction false} DoAdvances(policy: Policy, r: Registry, c: Command, id: LinkId)
    ensures
      var was, next := GenerationsOf(r, id), GenerationsOf(Do(policy, r, c), id);
      next == was || (exists g :: next == Advance(was, g)) || (id !in r.links && exists g :: next == Advance(NO_GENERATION, g))
  {
    var was, next := GenerationsOf(r, id), GenerationsOf(Do(policy, r, c), id);
    match c {
      case DeclareLink(facts, at) =>
        if facts.id == id && next != was {
          if id in r.links {
            assert next == Advance(was, Merged(r.links[id].entry.facts, facts).generation);
          } else {
            assert next == Advance(NO_GENERATION, facts.generation);
          }
        }
      case SeeGeneration(link, generation) =>
        if link == id && id in r.links { assert next == Advance(was, generation); }
      case _ =>
    }
  }

  ghost predicate GenerationsRecorded(g: GenerationState, adopted: seq<GenerationId>) {
    && Records(g.hasGeneration, g.current, g.retired, adopted, MAX_RETIRED_GENERATIONS)
    && g.changes == (if adopted == [] then 0 else |adopted| - 1)
  }

  lemma {:induction false} AdvanceRecorded(g: GenerationState, adopted: seq<GenerationId>, generation: GenerationId)
    requires GenerationsRecorded(g, adopted) && NoEarlyReturn(adopted, MAX_RETIRED_GENERATIONS)
    ensures
      var grown := adopted + NewlyCurrent(g, Advance(g, generation));
      GenerationsRecorded(Advance(g, generation), grown) && NoEarlyReturn(grown, MAX_RETIRED_GENERATIONS)
  {
    if NewlyCurrent(g, Advance(g, generation)) == [] {
      assert adopted + [] == adopted;
    } else {
      Adopt(g.hasGeneration, g.current, g.retired, adopted, MAX_RETIRED_GENERATIONS, generation);
    }
  }

  lemma {:induction false} StepRecorded(policy: Policy, r: Registry, c: Command, id: LinkId, adopted: seq<GenerationId>)
    requires GenerationsRecorded(GenerationsOf(r, id), adopted) && NoEarlyReturn(adopted, MAX_RETIRED_GENERATIONS)
    ensures
      var was, next := GenerationsOf(r, id), GenerationsOf(Do(policy, r, c), id);
      var grown := adopted + NewlyCurrent(was, next);
      GenerationsRecorded(next, grown) && NoEarlyReturn(grown, MAX_RETIRED_GENERATIONS)
  {
    var was, next := GenerationsOf(r, id), GenerationsOf(Do(policy, r, c), id);
    DoAdvances(policy, r, c, id);
    if next == was {
      assert adopted + NewlyCurrent(was, next) == adopted;
    } else {
      var g :| next == Advance(was, g);
      AdvanceRecorded(was, adopted, g);
    }
  }

  /**
   Over every run of registry operations, a link holds its current generation, exactly the last
   min(32, changes) generations it superseded in order, and no generation returns while retained.
   */
  lemma {:induction false} RetiredGenerationsExact(policy: Policy, cs: seq<Command>, id: LinkId)
    ensures
      var g, adopted := GenerationsOf(DoAll(policy, cs), id), Adopted(policy, cs, id);
      && GenerationsRecorded(g, adopted)
      && NoEarlyReturn(adopted, MAX_RETIRED_GENERATIONS)
      && WellFormed(g.current, g.retired, MAX_RETIRED_GENERATIONS)
  {
    if cs == [] {
    } else {
      var n := |cs| - 1;
      RetiredGenerationsExact(policy, cs[..n], id);
      StepRecorded(policy, DoAll(policy, cs[..n]), cs[n], id, Adopted(policy, cs[..n], id));
      var g := GenerationsOf(DoAll(policy, cs), id);
      RecordedIsWellFormed(g.hasGeneration, g.current, g.retired, Adopted(policy, cs, id), MAX_RETIRED_GENERATIONS);
    }
  }

  /**
   After any run, observing a generation of a known link is refused exactly when it is one of the
   last 32 the link superseded, a refused or repeated generation changes nothing, and any other
   becomes current.
   */
  lemma {:induction false} BehindIff(policy: Policy, cs: seq<Command>, id: LinkId, generation: GenerationId)
    requires id in DoAll(policy, cs).links
    ensures
      var r, adopted := DoAll(policy, cs), Adopted(policy, cs, id);
      var seen, after := GenerationSeen(r, id, generation), ObserveGeneration(r, id, generation);
      && (seen.behind <==> adopted != [] && generation in KeepLast(adopted[..|adopted| - 1], MAX_RETIRED_GENERATIONS))
      && (seen.behind ==> after == r)
      && (!seen.behind ==> CurrentGeneration(after, id) == generation)
      && (seen.changed <==> after != r)
  {
    RetiredGenerationsExact(policy, cs, id);
    var r := DoAll(policy, cs);
    assert r.links[id := r.links[id]] == r.links;
    var g := GenerationsOf(r, id);
    if Advance(g, generation) != g {
      assert ObserveGeneration(r, id, generation).links[id].generations != r.links[id].generations;
    }
  }

  // ---------------------------------------------------------------------------
  // What every reachable registry satisfies, and restoring it
  // ---------------------------------------------------------------------------

  ghost predicate LinkInv(id: LinkId, l: LinkRecord) {
    && l.entry.facts.id == id && ValidateFacts(l.entry.facts) == Success
    && |l.generations.retired| <= MAX_RETIRED_GENERATIONS
  }

  predicate SourceInv(id: SourceId, s: SourceRecord) {
    s.id == id && ValidId(id) && 0 < |s.name| <= MAX_NAME && s.provenance != ProvenanceClass.Unknown && s.registered
  }

  ghost predicate RegistryInv(policy: Policy, r: Registry) {
    LinksInv(policy, r.links) && SourcesInv(policy, r.sources)
  }

  lemma {:induction false} PutSize<K, V>(m: map<K, V>, k: K, v: V)
    ensures |m[k := v]| == |m| + (if k in m then 0 else 1)
  {
    assert m[k := v].Keys == m.Keys + {k};
    assert |m[k := v]| == |m[k := v].Keys| && |m| == |m.Keys|;
  }

  ghost predicate LinksInv(policy: Policy, links: map<LinkId, LinkRecord>) {
    (forall id | id in links :: LinkInv(id, links[id])) && |links| <= policy.limits.maxLinks
  }

  ghost predicate SourcesInv(policy: Policy, sources: map<SourceId, SourceRecord>) {
    (forall id | id in sources :: SourceInv(id, sources[id])) && |sources| <= policy.limits.maxSources
  }

  lemma {:induction false} PutLink(policy: Policy, links: map<LinkId, LinkRecord>, id: LinkId, l: LinkRecord)
    requires LinksInv(policy, links) && LinkInv(id, l) && (id in links || |links| < policy.limits.maxLinks)
    ensures LinksInv(policy, links[id := l])
  {
    PutSize(links, id, l);
  }

  lemma {:induction false} PutSource(policy: Policy, sources: map<SourceId, SourceRecord>, id: SourceId, s: SourceRecord)
    requires SourcesInv(policy, sources) && SourceInv(id, s) && (id in sources || |sources| < policy.limits.maxSources)
    ensures SourcesInv(policy, sources[id := s])
  {
    PutSize(sources, id, s);
  }

  lemma {:induction false} RegisterKeepsLinks(policy: Policy, r: Registry, facts: LinkFacts, at: TimePoint)
    requires LinksInv(policy, r.links)
    ensures LinksInv(policy, RegisterLink(policy, r, facts, at).links)
  {
    if RegisterLinkStatus(policy, r, facts) == Success {
      if facts.id in r.links {
        assert LinkInv(facts.id, r.links[facts.id]);
        PutLink(policy, r.links, facts.id, Reregistered(r.links[facts.id], facts));
      } else {
        PutLink(policy, r.links, facts.id, NewLink(facts, at));
      }
    }
  }

  /** What a command other than a registration does to a known link keeps its invariant. */
  lemma {:induction false} DoKeepsLinks(policy: Policy, r: Registry, c: Command)
    requires LinksInv(policy, r.links)
    ensures LinksInv(policy, Do(policy, r, c).links)
  {
    match c {
      case DeclareLink(facts, at) => RegisterKeepsLinks(policy, r, facts, at);
      case MentionLink(link, name, at) => RegisterKeepsLinks(policy, r, ImplicitFacts(link, name), at);
      case DeclareSource(_) =>
      case WithdrawSource(_) =>
      case _ =>
        if c.link in r.links {
          assert LinkInv(c.link, r.links[c.link]);
          PutLink(policy, r.links, c.link, Do(policy, r, c).links[c.link]);
        }
    }
  }

  lemma {:induction false} DoKeepsSources(policy: Policy, r: Registry, c: Command)
    requires SourcesInv(policy, r.sources)
    ensures SourcesInv(policy, Do(policy, r, c).sources)
  {
    match c {
      case DeclareSource(s) =>
        if RegisterSourceStatus(policy, r, s) == Success {
          PutSource(policy, r.sources, s.id, RegisterSource(policy, r, s).sources[s.id]);
        }
      case WithdrawSource(id) =>
        if id in r.sources {
          PutSource(policy, r.sources, id, r.sources[id].(retired := true));
        }
      case _ =>
    }
  }

  lemma {:induction false} DoKeepsInv(policy: Policy, r: Registry, c: Command)
    requires RegistryInv(policy, r)
    ensures RegistryInv(policy, Do(policy, r, c))
  {
    DoKeepsLinks(policy, r, c);
    DoKeepsSources(policy, r, c);
  }

  /** Re-registering keeps authority and provenance for the life of the source record. */
  lemma {:induction false} IdentityIsFixed(policy: Policy, r: Registry, c: Command, id: SourceId)
    requires id in r.sources
    ensures
      var next := Do(policy, r, c);
      && id in next.sources && next.sources[id].authority == r.sources[id].authority
      && next.sources[id].provenance == r.sources[id].provenance
  {
  }
}

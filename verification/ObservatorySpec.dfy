/**
 The observatory as a value: registry, store, runtime statistics and its own fence counts, and what
 one record does to them (src/runtime/observatory.cpp:257-435). The clock is a parameter of each
 record, and so is the printed form of a link identity. The transition log is not part of this
 model: nothing decided here reads it.
 */
module ObservatorySpec {
  import opened Domain
  import opened StoreSpec
  import opened RegistrySpec

  datatype Config = Config(policy: Policy, families: set<MetricFamily>)

  datatype Stats = Stats(submitted: nat, accepted: nat, fenced: nat, applied: nat, rejected: nat)

  datatype Observatory = Observatory(registry: Registry, store: StoreState, stats: Stats, ownFences: map<FenceReason, nat>)

  const EMPTY_OBSERVATORY: Observatory := Observatory(EMPTY_REGISTRY, EMPTY_STORE, Stats(0, 0, 0, 0, 0), map[])

  datatype Record =
    | SourceRecorded(source: SourceRecord)
    | LinkRecorded(facts: LinkFacts, at: TimePoint)
    | Observed(observation: Observation, linkText: string, at: TimePoint)

  function SourceOf(r: Registry, id: SourceId): Option<SourceRecord> {
    if id in r.sources then Some(r.sources[id]) else Option.None
  }

  /** A registered, unretired source reporting an enabled family. */
  predicate Trusted(cfg: Config, r: Registry, o: Observation) {
    && SourceOf(r, o.provenance.source).Some? && !SourceOf(r, o.provenance.source).value.retired
    && o.key.family in cfg.families
  }

  /** The link is known, or may be and was registered implicitly. */
  predicate Reachable(cfg: Config, r: Registry, o: Observation, text: string) {
    o.link in r.links || ImplicitStatus(cfg.policy, r, o.link, text) == Success
  }

  /** The registry once the link is known. */
  function Ensured(cfg: Config, r: Registry, o: Observation, text: string, now: TimePoint): Registry {
    if o.link in r.links then r else EnsureImplicit(cfg.policy, r, o.link, text, now)
  }

  function ContextOf(cfg: Config, r: Registry, o: Observation): AcceptContext {
    AcceptContext(SourceOf(r, o.provenance.source), CurrentGeneration(r, o.link), o.key.family in cfg.families)
  }

  function OwnFence(s: Observatory, r: Registry, reason: FenceReason): Observatory {
    Observatory(r, s.store, s.stats.(submitted := s.stats.submitted + 1, fenced := s.stats.fenced + 1),
                s.ownFences[reason := CountOf(s.ownFences, reason) + 1])
  }

  /** An observation handed to the store only to be refused and counted there. */
  function Untrusted(cfg: Config, s: Observatory, o: Observation, now: TimePoint): Observatory {
    var ctx := ContextOf(cfg, s.registry, o);
    var refused := !OutcomeOf(cfg.policy, s.store, o, ctx).accepted;
    Observatory(s.registry, Accept(cfg.policy, s.store, o, ctx, now),
                s.stats.(submitted := s.stats.submitted + 1, fenced := s.stats.fenced + (if refused then 1 else 0)),
                s.ownFences)
  }

  /** The generation has been observed; the store decides. */
  function Offer(cfg: Config, s: Observatory, r: Registry, o: Observation, now: TimePoint): Observatory {
    var ctx := ContextOf(cfg, r, o);
    var accepted := OutcomeOf(cfg.policy, s.store, o, ctx).accepted;
    Observatory(
      if accepted then NoteAccepted(r, o.link, o.observedAt, now) else NoteFenced(r, o.link),
      Accept(cfg.policy, s.store, o, ctx, now),
      s.stats.(submitted := s.stats.submitted + 1,
               accepted := s.stats.accepted + (if accepted then 1 else 0),
               fenced := s.stats.fenced + (if accepted then 0 else 1)),
      s.ownFences)
  }

  function ApplyObservation(cfg: Config, s: Observatory, o: Observation, text: string, now: TimePoint): Observatory {
    if !Trusted(cfg, s.registry, o) then Untrusted(cfg, s, o, now)
    else if !Reachable(cfg, s.registry, o, text) then OwnFence(s, s.registry, UnknownLink)
    else
      var known := Ensured(cfg, s.registry, o, text, now);
      if GenerationSeen(known, o.link, o.provenance.generation).behind then
        OwnFence(s, NoteFenced(known, o.link), GenerationBehind)
      else Offer(cfg, s, ObserveGeneration(known, o.link, o.provenance.generation), o, now)
  }

  function ApplySource(cfg: Config, s: Observatory, source: SourceRecord): Observatory {
    var live := source.(registered := false, retired := false);
    if RegisterSourceStatus(cfg.policy, s.registry, live) != Success then
      s.(stats := s.stats.(rejected := s.stats.rejected + 1))
    else
      var r := RegisterSource(cfg.policy, s.registry, live);
      s.(registry := if source.retired then RetireSource(r, source.id) else r,
         stats := s.stats.(applied := s.stats.applied + 1))
  }

  function ApplyLink(cfg: Config, s: Observatory, facts: LinkFacts, now: TimePoint): Observatory {
    if RegisterLinkStatus(cfg.policy, s.registry, facts) != Success then
      s.(stats := s.stats.(rejected := s.stats.rejected + 1))
    else
      s.(registry := ObserveGeneration(RegisterLink(cfg.policy, s.registry, facts, now), facts.id, facts.generation),
         stats := s.stats.(applied := s.stats.applied + 1))
  }

  function ApplyRecord(cfg: Config, s: Observatory, rec: Record): Observatory {
    match rec
    case SourceRecorded(source) => ApplySource(cfg, s, source)
    case LinkRecorded(facts, at) => ApplyLink(cfg, s, facts, at)
    case Observed(o, text, at) => ApplyObservation(cfg, s, o, text, at)
  }

  function Process(cfg: Config, s: Observatory, recs: seq<Record>): Observatory {
    if recs == [] then s else ApplyRecord(cfg, Process(cfg, s, recs[..|recs| - 1]), recs[|recs| - 1])
  }

  // ---------------------------------------------------------------------------
  // The registry and store runs inside a run of records
  // ---------------------------------------------------------------------------

  /** The registry operations one record performs. */
  function CommandsOf(cfg: Config, s: Observatory, rec: Record): seq<Command> {
    match rec
    case SourceRecorded(source) =>
      var live := source.(registered := false, retired := false);
      if RegisterSourceStatus(cfg.policy, s.registry, live) == Success && source.retired
      then [DeclareSource(live), WithdrawSource(source.id)] else [DeclareSource(live)]
    case LinkRecorded(facts, at) =>
      if RegisterLinkStatus(cfg.policy, s.registry, facts) == Success
      then [DeclareLink(facts, at), SeeGeneration(facts.id, facts.generation)] else [DeclareLink(facts, at)]
    case Observed(o, text, at) =>
      if !Trusted(cfg, s.registry, o) || !Reachable(cfg, s.registry, o, text) then []
      else
        var known := Ensured(cfg, s.registry, o, text, at);
        var mention := MentionLink(o.link, text, at);
        if GenerationSeen(known, o.link, o.provenance.generation).behind then [mention, CountFenced(o.link)]
        else
          var r := ObserveGeneration(known, o.link, o.provenance.generation);
          [mention, SeeGeneration(o.link, o.provenance.generation),
           if OutcomeOf(cfg.policy, s.store, o, ContextOf(cfg, r, o)).accepted then CountAccepted(o.link, o.observedAt, at)
           else CountFenced(o.link)]
  }

  /** The registry the store's context is read from. */
  function ContextRegistry(cfg: Config, s: Observatory, o: Observation, text: string, now: TimePoint): Registry {
    if !Trusted(cfg, s.registry, o) then s.registry
    else ObserveGeneration(Ensured(cfg, s.registry, o, text, now), o.link, o.provenance.generation)
  }

  /** Whether the record reaches the store. */
  predicate Offered(cfg: Config, s: Observatory, rec: Record) {
    && rec.Observed?
    && var o := rec.observation;
       || !Trusted(cfg, s.registry, o)
       || (&& Reachable(cfg, s.registry, o, rec.linkText)
           && !GenerationSeen(Ensured(cfg, s.registry, o, rec.linkText, rec.at), o.link, o.provenance.generation).behind)
  }

  /** The store call a record makes, if any. */
  function CallsOf(cfg: Config, s: Observatory, rec: Record): seq<Call> {
    if Offered(cfg, s, rec) then
      [Call(rec.observation, ContextOf(cfg, ContextRegistry(cfg, s, rec.observation, rec.linkText, rec.at), rec.observation), rec.at)]
    else []
  }

  function Commands(cfg: Config, recs: seq<Record>): seq<Command> {
    if recs == [] then []
    else
      var before := recs[..|recs| - 1];
      Commands(cfg, before) + CommandsOf(cfg, Process(cfg, EMPTY_OBSERVATORY, before), recs[|recs| - 1])
  }

  function Calls(cfg: Config, recs: seq<Record>): seq<Call> {
    if recs == [] then []
    else
      var before := recs[..|recs| - 1];
      Calls(cfg, before) + CallsOf(cfg, Process(cfg, EMPTY_OBSERVATORY, before), recs[|recs| - 1])
  }
}

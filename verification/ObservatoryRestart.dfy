/**
 Restarting a whole observatory from what it persisted: registry, store and totals
 (src/runtime/observatory.cpp:628-647 and 665-727).
 */
module ObservatoryRestart {
  import opened Domain
  import opened StoreSpec
  import opened StoreInvariant
  import opened StoreRestart
  import opened RegistrySpec
  import opened ObservatorySpec
  import opened ObservatoryRuns

  /** The evidence-bearing part of a snapshot. */
  datatype Saved = Saved(
    links: seq<PersistedLink>, sources: seq<SourceRecord>, slots: seq<PersistedSlot>,
    streams: seq<PersistedStream>, totals: Totals)

  function FreezeLink(l: LinkRecord): PersistedLink { PersistedLink(l.entry.facts, l.entry, l.generations) }

  /** Each link is listed exactly once, in any order. */
  ghost predicate ListsLinks(ps: seq<PersistedLink>, links: map<LinkId, LinkRecord>) {
    && (forall i, j | 0 <= i < j < |ps| :: ps[i].facts.id != ps[j].facts.id)
    && (forall i | 0 <= i < |ps| :: ps[i].facts.id in links && ps[i] == FreezeLink(links[ps[i].facts.id]))
    && (forall id | id in links :: exists i :: 0 <= i < |ps| && ps[i].facts.id == id)
  }

  ghost predicate ListsSources(ps: seq<SourceRecord>, sources: map<SourceId, SourceRecord>) {
    && (forall i, j | 0 <= i < j < |ps| :: ps[i].id != ps[j].id)
    && (forall i | 0 <= i < |ps| :: ps[i].id in sources && ps[i] == sources[ps[i].id])
    && (forall id | id in sources :: exists i :: 0 <= i < |ps| && ps[i].id == id)
  }

  ghost predicate Collects(saved: Saved, s: Observatory) {
    && ListsLinks(saved.links, s.registry.links) && ListsSources(saved.sources, s.registry.sources)
    && ListsSlots(saved.slots, s.store.slots) && ListsStreams(saved.streams, s.store.streams)
    && saved.totals == TotalsOf(s.store)
  }

  // ---------------------------------------------------------------------------
  // Restoring
  // ---------------------------------------------------------------------------

  /** Registers the source as live, then retires it again if it was retired. */
  function RestoreSource(policy: Policy, r: Registry, source: SourceRecord): Option<Registry> {
    var live := source.(retired := false);
    if RegisterSourceStatus(policy, r, live) != Success then Option.None
    else
      var next := RegisterSource(policy, r, live);
      Some(if source.retired then RetireSource(next, source.id) else next)
  }

  function RestoreSources(policy: Policy, r: Registry, ps: seq<SourceRecord>): Option<Registry>
    decreases |ps|
  {
    if ps == [] then Some(r)
    else match RestoreSource(policy, r, ps[0])
      case None => Option.None
      case Some(next) => RestoreSources(policy, next, ps[1..])
  }

  function RestoreLinks(policy: Policy, r: Registry, ps: seq<PersistedLink>): Option<Registry>
    decreases |ps|
  {
    if ps == [] then Some(r)
    else if RestoreLinkStatus(policy, r, ps[0]) != Success then Option.None
    else RestoreLinks(policy, RestoreLink(policy, r, ps[0]), ps[1..])
  }

  function RestoreRegistry(policy: Policy, saved: Saved): Option<Registry> {
    match RestoreSources(policy, EMPTY_REGISTRY, saved.sources)
    case None => Option.None
    case Some(r) => RestoreLinks(policy, r, saved.links)
  }

  /** Into a fresh process: session statistics that describe evidence come back, the others do not. */
  function RestoreFrom(cfg: Config, saved: Saved): Option<Observatory> {
    match RestoreRegistry(cfg.policy, saved)
    case None => Option.None
    case Some(r) =>
      match RestoreAll(cfg.policy, saved.slots, saved.streams, saved.totals)
      case None => Option.None
      case Some(st) => Some(Observatory(r, st, Stats(0, saved.totals.accepted, saved.totals.fenced, 0, 0), map[]))
  }

  lemma {:induction false} SourceRebuilt(policy: Policy, r: Registry, s: SourceRecord, sources: map<SourceId, SourceRecord>)
    requires SourcesInv(policy, sources) && s.id in sources && s == sources[s.id] && s.id !in r.sources
    requires r.sources.Keys <= sources.Keys
    ensures RestoreSource(policy, r, s) == Some(r.(sources := r.sources[s.id := s]))
  {
    assert SourceInv(s.id, s);
    SubmapNotLarger(r.sources, sources, s.id);
    assert r.sources[s.id := s.(retired := false)][s.id := s] == r.sources[s.id := s];
  }

  lemma {:induction false} SourcesRebuilt(policy: Policy, r: Registry, ps: seq<SourceRecord>, sources: map<SourceId, SourceRecord>)
    requires SourcesInv(policy, sources)
    requires forall i, j | 0 <= i < j < |ps| :: ps[i].id != ps[j].id
    requires forall i | 0 <= i < |ps| :: ps[i].id in sources && ps[i] == sources[ps[i].id] && ps[i].id !in r.sources
    requires forall id | id in r.sources :: id in sources && r.sources[id] == sources[id]
    ensures
      var out := RestoreSources(policy, r, ps);
      && out.Some? && out.value.links == r.links
      && (forall id | id in out.value.sources :: id in sources && out.value.sources[id] == sources[id])
      && (forall id | id in r.sources :: id in out.value.sources)
      && (forall i | 0 <= i < |ps| :: ps[i].id in out.value.sources)
    decreases |ps|
  {
    if ps != [] {
      SourceRebuilt(policy, r, ps[0], sources);
      SourcesRebuilt(policy, r.(sources := r.sources[ps[0].id := ps[0]]), ps[1..], sources);
    }
  }

  lemma {:induction false} LinkRebuilt(policy: Policy, r: Registry, p: PersistedLink, links: map<LinkId, LinkRecord>)
    requires LinksInv(policy, links) && p.facts.id in links && p == FreezeLink(links[p.facts.id])
    requires r.links.Keys <= links.Keys
    ensures RestoreLinkStatus(policy, r, p) == Success
    ensures RestoreLink(policy, r, p) == r.(links := r.links[p.facts.id := links[p.facts.id]])
  {
    assert LinkInv(p.facts.id, links[p.facts.id]);
    if p.facts.id !in r.links {
      SubmapNotLarger(r.links, links, p.facts.id);
    }
  }

  lemma {:induction false} LinksRebuilt(policy: Policy, r: Registry, ps: seq<PersistedLink>, links: map<LinkId, LinkRecord>)
    requires LinksInv(policy, links)
    requires forall i | 0 <= i < |ps| :: ps[i].facts.id in links && ps[i] == FreezeLink(links[ps[i].facts.id])
    requires forall id | id in r.links :: id in links && r.links[id] == links[id]
    ensures
      var out := RestoreLinks(policy, r, ps);
      && out.Some? && out.value.sources == r.sources
      && (forall id | id in out.value.links :: id in links && out.value.links[id] == links[id])
      && (forall id | id in r.links :: id in out.value.links)
      && (forall i | 0 <= i < |ps| :: ps[i].facts.id in out.value.links)
    decreases |ps|
  {
    if ps != [] {
      LinkRebuilt(policy, r, ps[0], links);
      LinksRebuilt(policy, RestoreLink(policy, r, ps[0]), ps[1..], links);
    }
  }

  lemma {:induction false} AllSourcesRebuilt(policy: Policy, sources: map<SourceId, SourceRecord>, ps: seq<SourceRecord>)
    requires SourcesInv(policy, sources) && ListsSources(ps, sources)
    ensures RestoreSources(policy, EMPTY_REGISTRY, ps) == Some(Registry(map[], sources))
  {
    SourcesRebuilt(policy, EMPTY_REGISTRY, ps, sources);
    assert RestoreSources(policy, EMPTY_REGISTRY, ps).value.sources == sources;
  }

  lemma {:induction false} AllLinksRebuilt(policy: Policy, r: Registry, links: map<LinkId, LinkRecord>, ps: seq<PersistedLink>)
    requires LinksInv(policy, links) && ListsLinks(ps, links) && r.links == map[]
    ensures RestoreLinks(policy, r, ps) == Some(r.(links := links))
  {
    LinksRebuilt(policy, r, ps, links);
    assert RestoreLinks(policy, r, ps).value.links == links;
  }

  /** A registry that satisfies its invariant is rebuilt exactly from any listing of it. */
  lemma {:induction false} RegistryRebuilt(policy: Policy, r: Registry, saved: Saved)
    requires RegistryInv(policy, r) && ListsLinks(saved.links, r.links) && ListsSources(saved.sources, r.sources)
    ensures RestoreRegistry(policy, saved) == Some(r)
  {
    AllSourcesRebuilt(policy, r.sources, saved.sources);
    AllLinksRebuilt(policy, Registry(map[], r.sources), r.links, saved.links);
  }

  // ---------------------------------------------------------------------------
  // Streams belong to registered sources
  // ---------------------------------------------------------------------------

  lemma {:induction false} ApplyStreamKeys(policy: Policy, st: StoreState, c: Call)
    ensures Apply(policy, st, c).streams.Keys <= st.streams.Keys + {c.Source()}
    ensures c.context.source.None? ==> Apply(policy, st, c).streams == st.streams
  {
    if EntryFence(policy, c.observation, c.context) == FenceReason.None {
      SettleShape(policy, st, c.observation, c.context.source.value, c.now, Admit(StreamOf(st, c.Source()), c.observation));
    }
  }

  lemma {:induction false} SourcesStay(policy: Policy, r: Registry, cs: seq<Command>)
    ensures r.sources.Keys <= DoEach(policy, r, cs).sources.Keys
    decreases |cs|
  {
    if cs != [] {
      SourcesStay(policy, Do(policy, r, cs[0]), cs[1..]);
    }
  }

  /** Every stream belongs to a registered source, so there are at most max_sources of them. */
  lemma {:induction false} StreamsAreRegistered(cfg: Config, recs: seq<Record>)
    ensures
      var s := Process(cfg, EMPTY_OBSERVATORY, recs);
      s.store.streams.Keys <= s.registry.sources.Keys
  {
    if recs != [] {
      var n := |recs| - 1;
      var s := Process(cfg, EMPTY_OBSERVATORY, recs[..n]);
      StreamsAreRegistered(cfg, recs[..n]);
      RecordFactors(cfg, s, recs[n]);
      SourcesStay(cfg.policy, s.registry, CommandsOf(cfg, s, recs[n]));
      var calls := CallsOf(cfg, s, recs[n]);
      if calls != [] {
        ApplyStreamKeys(cfg.policy, s.store, calls[0]);
        ContextSources(cfg, s, recs[n]);
      }
    }
  }

  lemma {:induction false} ContextSources(cfg: Config, s: Observatory, rec: Record)
    requires Offered(cfg, s, rec)
    ensures CallsOf(cfg, s, rec)[0].context.source == SourceOf(s.registry, rec.observation.provenance.source)
  {
    var o := rec.observation;
    assert ContextRegistry(cfg, s, o, rec.linkText, rec.at).sources == s.registry.sources;
  }

  lemma {:induction false} RegistryReachable(policy: Policy, cs: seq<Command>)
    ensures RegistryInv(policy, DoAll(policy, cs))
  {
    if cs != [] {
      RegistryReachable(policy, cs[..|cs| - 1]);
      DoKeepsInv(policy, DoAll(policy, cs[..|cs| - 1]), cs[|cs| - 1]);
    }
  }

  lemma {:induction false} SubsetSize<T>(a: set<T>, b: set<T>)
    requires a <= b
    ensures |a| <= |b|
  {
    assert b == a + (b - a);
  }

  // ---------------------------------------------------------------------------
  // Behaviour after the restart
  // ---------------------------------------------------------------------------

  /** The same registry, and stores that differ at most in session fence counts. */
  ghost predicate Alike(a: Observatory, b: Observatory) {
    a.registry == b.registry && Twins(a.store, b.store)
  }

  /** What a record's observation is answered, when it reaches the store. */
  function RecordAnswer(cfg: Config, s: Observatory, rec: Record): Option<AcceptOutcome> {
    if CallsOf(cfg, s, rec) == [] then Option.None else Some(Answer(cfg.policy, s.store, CallsOf(cfg, s, rec)[0]))
  }

  lemma {:induction false} AlikeCalls(cfg: Config, a: Observatory, b: Observatory, rec: Record)
    requires Alike(a, b)
    ensures CallsOf(cfg, a, rec) == CallsOf(cfg, b, rec)
  {
  }

  lemma {:induction false} AlikeCommands(cfg: Config, a: Observatory, b: Observatory, rec: Record)
    requires Alike(a, b) && RecordAnswer(cfg, a, rec) == RecordAnswer(cfg, b, rec)
    ensures CommandsOf(cfg, a, rec) == CommandsOf(cfg, b, rec)
  {
    if rec.Observed? && CallsOf(cfg, a, rec) != [] {
      assert RecordAnswer(cfg, a, rec).value == Answer(cfg.policy, a.store, CallsOf(cfg, a, rec)[0]);
      assert RecordAnswer(cfg, b, rec).value == Answer(cfg.policy, b.store, CallsOf(cfg, a, rec)[0]);
    }
  }

  lemma {:induction false} AlikeStep(cfg: Config, a: Observatory, b: Observatory, rec: Record)
    requires Alike(a, b)
    ensures RecordAnswer(cfg, a, rec) == RecordAnswer(cfg, b, rec)
    ensures Alike(ApplyRecord(cfg, a, rec), ApplyRecord(cfg, b, rec))
  {
    AlikeCalls(cfg, a, b, rec);
    if CallsOf(cfg, a, rec) != [] {
      TwinsAnswerAlike(cfg.policy, a.store, b.store, CallsOf(cfg, a, rec)[0]);
    }
    AlikeCommands(cfg, a, b, rec);
    RecordFactors(cfg, a, rec);
    RecordFactors(cfg, b, rec);
  }

  lemma {:induction false} AlikeRuns(cfg: Config, a: Observatory, b: Observatory, later: seq<Record>)
    requires Alike(a, b)
    ensures Alike(Process(cfg, a, later), Process(cfg, b, later))
  {
    if later != [] {
      var n := |later| - 1;
      AlikeRuns(cfg, a, b, later[..n]);
      AlikeStep(cfg, Process(cfg, a, later[..n]), Process(cfg, b, later[..n]), later[n]);
    }
  }

  /** What makes an observatory restorable. */
  ghost predicate Restorable(cfg: Config, s: Observatory) {
    RegistryInv(cfg.policy, s.registry) && StoreInv(cfg.policy, s.store) && |s.store.streams| <= cfg.policy.limits.maxSources
  }

  lemma {:induction false} RunRestorable(cfg: Config, recs: seq<Record>)
    ensures Restorable(cfg, Process(cfg, EMPTY_OBSERVATORY, recs))
  {
    var s := Process(cfg, EMPTY_OBSERVATORY, recs);
    RunFactors(cfg, recs);
    RegistryReachable(cfg.policy, Commands(cfg, recs));
    StreamsAreRegistered(cfg, recs);
    SubsetSize(s.store.streams.Keys, s.registry.sources.Keys);
    assert |s.store.streams| == |s.store.streams.Keys| && |s.registry.sources| == |s.registry.sources.Keys|;
    RunKeepsInv(cfg.policy, Calls(cfg, recs));
  }

  lemma {:induction false} Restores(cfg: Config, s: Observatory, saved: Saved)
    requires Restorable(cfg, s) && Collects(saved, s)
    ensures RestoreFrom(cfg, saved).Some? && Alike(s, RestoreFrom(cfg, saved).value)
  {
    RegistryRebuilt(cfg.policy, s.registry, saved);
    RestoreRebuilds(cfg.policy, s.store, saved.slots, saved.streams);
  }

  /**
   Restart equivalence of the whole observatory, without any bound on its sources: after every run
   of records, restoring any listing of what it holds succeeds, and from then on every sequence of
   records leaves the same registry and store and gets the same answers as without the restart.
   */
  lemma {:induction false} ObservatoryRestarts(cfg: Config, recs: seq<Record>, saved: Saved, later: seq<Record>, next: Record)
    requires Collects(saved, Process(cfg, EMPTY_OBSERVATORY, recs))
    ensures
      var s, back := Process(cfg, EMPTY_OBSERVATORY, recs), RestoreFrom(cfg, saved);
      && back.Some?
      && Alike(Process(cfg, s, later), Process(cfg, back.value, later))
      && RecordAnswer(cfg, Process(cfg, s, later), next) == RecordAnswer(cfg, Process(cfg, back.value, later), next)
  {
    RunRestorable(cfg, recs);
    Restores(cfg, Process(cfg, EMPTY_OBSERVATORY, recs), saved);
    var s, back := Process(cfg, EMPTY_OBSERVATORY, recs), RestoreFrom(cfg, saved).value;
    AlikeRuns(cfg, s, back, later);
    AlikeStep(cfg, Process(cfg, s, later), Process(cfg, back, later), next);
  }

  /**
   The restored statistics balance against the store, but no longer against what was submitted:
   submitted restarts from zero, so submitted equals accepted plus fenced only if nothing was saved.
   */
  lemma RestoredStatsBalanceIff(cfg: Config, saved: Saved)
    requires RestoreFrom(cfg, saved).Some?
    ensures
      var stats := RestoreFrom(cfg, saved).value.stats;
      stats.submitted == stats.accepted + stats.fenced <==> saved.totals.accepted == 0 && saved.totals.fenced == 0
  {
  }
}

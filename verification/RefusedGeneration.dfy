/**
 A refused observation that names a new generation. The generation is observed before the store is
 asked (src/runtime/observatory.cpp:365-402), so the refusal does not undo it: what was accepted
 under earlier generations no longer speaks for the link.
 */
module RefusedGeneration {
  import opened Checked
  import opened Domain
  import opened Retirement
  import opened StoreSpec
  import opened RegistrySpec
  import opened ObservatorySpec
  import opened ObservatoryRuns
  import opened LateFences
  import Classifier
  import Soundness = ClassifierSoundness

  // ---------------------------------------------------------------------------
  // Evidence belongs to generations that were current
  // ---------------------------------------------------------------------------

  /** Whether a retained piece of evidence about the link carries the generation. */
  ghost predicate Holds(st: StoreState, link: LinkId, g: GenerationId) {
    exists key, e :: key in st.slots && key.link == link && e in st.slots[key].history && e.observation.provenance.generation == g
  }

  /** Only an accepted call changes the slots: its own slot's history grows by its evidence. */
  lemma {:induction false} SlotsAfter(policy: Policy, st: StoreState, c: Call)
    ensures
      var next, h := Apply(policy, st, c), SlotOf(st, c.Key()).history;
      if Answer(policy, st, c).accepted then
        && c.context.source.Some? && c.Key() in next.slots && next.slots == st.slots[c.Key() := next.slots[c.Key()]]
        && next.slots[c.Key()].history == KeepLast(h + [EvidenceOf(c.observation, c.context.source.value, c.now)], policy.limits.maxEvidencePerKey)
      else next.slots == st.slots
  {
  }

  lemma {:induction false} HeldBefore(policy: Policy, st: StoreState, c: Call, link: LinkId, g: GenerationId)
    requires Holds(Apply(policy, st, c), link, g) && !Holds(st, link, g)
    ensures Answer(policy, st, c).accepted && c.observation.link == link && c.observation.provenance.generation == g
  {
    SlotsAfter(policy, st, c);
    var slots := Apply(policy, st, c).slots;
    var key, e :| key in slots && key.link == link && e in slots[key].history && e.observation.provenance.generation == g;
    if Answer(policy, st, c).accepted && key == c.Key() {
      assert e in SlotOf(st, key).history || e == EvidenceOf(c.observation, c.context.source.value, c.now);
    }
  }

  lemma {:induction false} HeldByRecord(cfg: Config, s: Observatory, rec: Record, link: LinkId, g: GenerationId)
    requires Holds(ApplyRecord(cfg, s, rec).store, link, g) && !Holds(s.store, link, g)
    ensures CurrentGeneration(ApplyRecord(cfg, s, rec).registry, link) == g
  {
    RecordFactors(cfg, s, rec);
    var c := CallsOf(cfg, s, rec)[0];
    HeldBefore(cfg.policy, s.store, c, link, g);
    AcceptedIsCounted(cfg, s, rec);
    AcceptedIsCurrent(cfg, s, rec.observation, rec.linkText, rec.at);
  }

  lemma {:induction false} AcceptedIsCounted(cfg: Config, s: Observatory, rec: Record)
    requires CallsOf(cfg, s, rec) != [] && Answer(cfg.policy, s.store, CallsOf(cfg, s, rec)[0]).accepted
    ensures ApplyObservation(cfg, s, rec.observation, rec.linkText, rec.at).stats.accepted > s.stats.accepted
  {
    if !Trusted(cfg, s.registry, rec.observation) {
      UntrustedIsRefused(cfg, s, rec.observation);
    }
  }

  /** The state after the first k records. */
  function After(cfg: Config, recs: seq<Record>, k: nat): Observatory
    requires k <= |recs|
  {
    Process(cfg, EMPTY_OBSERVATORY, recs[..k])
  }

  /** A generation that has never been the link's current one is carried by no evidence about it. */
  lemma {:induction false} NeverCurrentNeverHeld(cfg: Config, recs: seq<Record>, n: nat, link: LinkId, g: GenerationId)
    requires n <= |recs|
    requires forall k | 0 <= k <= n :: CurrentGeneration(After(cfg, recs, k).registry, link) != g
    ensures !Holds(After(cfg, recs, n).store, link, g)
  {
    if n > 0 {
      NeverCurrentNeverHeld(cfg, recs, n - 1, link, g);
      assert recs[..n][..n - 1] == recs[..n - 1];
      assert After(cfg, recs, n) == ApplyRecord(cfg, After(cfg, recs, n - 1), recs[n - 1]);
      if Holds(After(cfg, recs, n).store, link, g) {
        HeldByRecord(cfg, After(cfg, recs, n - 1), recs[n - 1], link, g);
      }
    }
  }

  lemma {:induction false} RefusedHoldsNothing(cfg: Config, s: Observatory, o: Observation, text: string, now: TimePoint, g: GenerationId)
    requires ApplyObservation(cfg, s, o, text, now).stats.accepted == s.stats.accepted && !Holds(s.store, o.link, g)
    ensures !Holds(ApplyObservation(cfg, s, o, text, now).store, o.link, g)
  {
    var rec := Observed(o, text, now);
    if Holds(ApplyRecord(cfg, s, rec).store, o.link, g) {
      RecordFactors(cfg, s, rec);
      HeldBefore(cfg.policy, s.store, CallsOf(cfg, s, rec)[0], o.link, g);
      AcceptedIsCounted(cfg, s, rec);
    }
  }

  /**
   After any run: an observation that is refused, but names a valid generation its link never had,
   becomes the link's generation nevertheless, and leaves no evidence standing for the link. The
   link is then Unknown or Stale, or Flapping on recorded transitions, whatever it was before.
   */
  lemma {:induction false} RefusedGenerationSilences(cfg: Config, recs: seq<Record>, o: Observation, text: string, now: TimePoint, input: Classifier.Input)
    requires
      var s, g := Process(cfg, EMPTY_OBSERVATORY, recs), o.provenance.generation;
      && Adopts(cfg, s.registry, o, text) && ApplyObservation(cfg, s, o, text, now).stats.accepted == s.stats.accepted
      && ValidId(g) && forall k | 0 <= k <= |recs| :: CurrentGeneration(After(cfg, recs, k).registry, o.link) != g
    requires
      var after := ApplyObservation(cfg, Process(cfg, EMPTY_OBSERVATORY, recs), o, text, now);
      input.link == o.link && input.currentGeneration == CurrentGeneration(after.registry, o.link)
    ensures
      var after := ApplyObservation(cfg, Process(cfg, EMPTY_OBSERVATORY, recs), o, text, now);
      && CurrentGeneration(after.registry, o.link) == o.provenance.generation
      && (forall key, e :: !Soundness.Stands(input, after.store, key, e))
      && Classifier.StateOf(input, after.store) in {Classifier.LinkState.Unknown, Classifier.LinkState.Stale, Classifier.Flapping}
  {
    var s, g := Process(cfg, EMPTY_OBSERVATORY, recs), o.provenance.generation;
    var after := ApplyObservation(cfg, s, o, text, now);
    assert recs[..|recs|] == recs;
    NeverCurrentNeverHeld(cfg, recs, |recs|, o.link, g);
    RefusedHoldsNothing(cfg, s, o, text, now, g);
    GenerationMovesIff(cfg, s, o, text, now);
    forall key, e ensures !Soundness.Stands(input, after.store, key, e) {
      NothingHeldNothingStands(input, after.store, key, e);
    }
    Soundness.SilenceIsNoClaim(input, after.store);
  }

  lemma {:induction false} NothingHeldNothingStands(input: Classifier.Input, st: StoreState, key: MetricKey, e: Evidence)
    requires ValidId(input.currentGeneration) && !Holds(st, input.link, input.currentGeneration)
    ensures !Soundness.Stands(input, st, key, e)
  {
    assert input.Slot(key).link == input.link;
  }

  // ---------------------------------------------------------------------------
  // A run in which it happens
  // ---------------------------------------------------------------------------

  /** The chief reads the link up, at instant 10, under a generation and a revision. */
  function Read(generation: GenerationId, sequence: U64): Observation {
    Observation(300 + sequence, Provenance(CHIEF.id, 1, 1, generation, sequence), LINK, Classifier.OPER_KEY, Oper(Up), 10, 10)
  }

  const NEWS: Observation := Read(1, 5)
  const REPLAY: Observation := Read(2, 3)
  const BEFORE_REPLAY: seq<Record> := [SourceRecorded(CHIEF), LinkRecorded(LINE, 0), Observed(NEWS, "link", 10)]

  /** Room for one source, one link and one piece of evidence. */
  predicate HasRoom(cfg: Config) {
    && OperState in cfg.families && cfg.policy.limits.maxLinks > 0 && cfg.policy.limits.maxSources > 0
    && cfg.policy.limits.maxEvidencePerKey > 0
  }

  /** The source and the link are declared; nothing has been observed. */
  ghost predicate Introduced(s: Observatory) {
    && CHIEF.id in s.registry.sources && s.registry.sources[CHIEF.id] == CHIEF
    && LINK in s.registry.links && s.registry.links[LINK].generations == GenerationState(1, true, [], 0)
    && s.store == EMPTY_STORE && s.stats.accepted == 0
  }

  lemma {:induction false} Declaring(cfg: Config)
    requires HasRoom(cfg)
    ensures Introduced(ApplyRecord(cfg, ApplyRecord(cfg, EMPTY_OBSERVATORY, BEFORE_REPLAY[0]), BEFORE_REPLAY[1]))
    ensures CurrentGeneration(ApplyRecord(cfg, EMPTY_OBSERVATORY, BEFORE_REPLAY[0]).registry, LINK) == 0
  {
  }

  function CallOf(o: Observation): Call { Call(o, AcceptContext(Some(CHIEF), o.provenance.generation, true), 10) }

  /** A trusted observation of a known link whose generation is current or new is offered to the store as such. */
  lemma {:induction false} Offering(cfg: Config, s: Observatory, o: Observation)
    requires OperState in cfg.families && o.link == LINK && o.key == Classifier.OPER_KEY && o.provenance.source == CHIEF.id
    requires CHIEF.id in s.registry.sources && s.registry.sources[CHIEF.id] == CHIEF
    requires LINK in s.registry.links && s.registry.links[LINK].generations == GenerationState(1, true, [], 0)
    ensures
      var next, answer := ApplyObservation(cfg, s, o, "link", 10), Answer(cfg.policy, s.store, CallOf(o));
      && next.store == Apply(cfg.policy, s.store, CallOf(o))
      && next.stats.accepted == s.stats.accepted + (if answer.accepted then 1 else 0)
      && next.registry.sources == s.registry.sources && LINK in next.registry.links
      && next.registry.links[LINK].generations == Advance(GenerationState(1, true, [], 0), o.provenance.generation)
      && Trusted(cfg, s.registry, o)
  {
    var r := ObserveGeneration(s.registry, LINK, o.provenance.generation);
    ObservedIsCurrent(s.registry, LINK, o.provenance.generation);
    assert ContextOf(cfg, r, o) == CallOf(o).context;
  }

  lemma {:induction false} NewsIsAccepted(policy: Policy)
    requires policy.limits.maxLinks > 0 && policy.limits.maxEvidencePerKey > 0
    ensures
      var st := Apply(policy, EMPTY_STORE, CallOf(NEWS));
      && Answer(policy, EMPTY_STORE, CallOf(NEWS)).accepted
      && CallOf(NEWS).Key() in st.slots && st.slots[CallOf(NEWS).Key()].history == [EvidenceOf(NEWS, CHIEF, 10)]
      && StreamOf(st, CHIEF.id).hasScope && StreamOf(st, CHIEF.id).scope == CallOf(NEWS).Scope()
      && StreamOf(st, CHIEF.id).hasSequence && StreamOf(st, CHIEF.id).lastSequence == 5
  {
    Recording(policy, EMPTY_STORE, CallOf(NEWS));
  }

  lemma {:induction false} ReplayIsFenced(policy: Policy, st: StoreState)
    requires StreamOf(st, CHIEF.id).hasScope && StreamOf(st, CHIEF.id).scope == CallOf(REPLAY).Scope()
    requires StreamOf(st, CHIEF.id).hasSequence && StreamOf(st, CHIEF.id).lastSequence == 5
    ensures Answer(policy, st, CallOf(REPLAY)).fence == RevisionReplay && !Answer(policy, st, CallOf(REPLAY)).accepted
  {
  }

  lemma {:induction false} FirstTwo(cfg: Config)
    ensures
      var one := ApplyRecord(cfg, EMPTY_OBSERVATORY, BEFORE_REPLAY[0]);
      && After(cfg, BEFORE_REPLAY, 0) == EMPTY_OBSERVATORY && After(cfg, BEFORE_REPLAY, 1) == one
      && After(cfg, BEFORE_REPLAY, 2) == ApplyRecord(cfg, one, BEFORE_REPLAY[1])
  {
    assert BEFORE_REPLAY[..1] == [BEFORE_REPLAY[0]] && BEFORE_REPLAY[..1][..0] == [];
    assert BEFORE_REPLAY[..2][..1] == BEFORE_REPLAY[..1];
  }

  lemma {:induction false} FirstRecords(cfg: Config)
    requires HasRoom(cfg)
    ensures Introduced(After(cfg, BEFORE_REPLAY, 2))
    ensures CurrentGeneration(After(cfg, BEFORE_REPLAY, 0).registry, LINK) == 0
    ensures CurrentGeneration(After(cfg, BEFORE_REPLAY, 1).registry, LINK) == 0
  {
    FirstTwo(cfg);
    Declaring(cfg);
  }

  lemma {:induction false} ThirdRecord(cfg: Config)
    ensures After(cfg, BEFORE_REPLAY, 3) == ApplyObservation(cfg, After(cfg, BEFORE_REPLAY, 2), NEWS, "link", 10)
  {
    assert BEFORE_REPLAY[..3][..2] == BEFORE_REPLAY[..2];
  }

  /** The chief's revision 5 is held, under generation 1. */
  ghost predicate Heard(s: Observatory) {
    && CHIEF.id in s.registry.sources && s.registry.sources[CHIEF.id] == CHIEF
    && LINK in s.registry.links && s.registry.links[LINK].generations == GenerationState(1, true, [], 0)
    && s.stats.accepted == 1
    && CallOf(NEWS).Key() in s.store.slots && s.store.slots[CallOf(NEWS).Key()].history == [EvidenceOf(NEWS, CHIEF, 10)]
    && CHIEF.id in s.store.streams && s.store.streams[CHIEF.id].hasScope && s.store.streams[CHIEF.id].scope == CallOf(NEWS).Scope()
    && s.store.streams[CHIEF.id].hasSequence && s.store.streams[CHIEF.id].lastSequence == 5
  }

  lemma {:induction false} NewsIsHeard(cfg: Config, s: Observatory)
    requires HasRoom(cfg) && Introduced(s)
    ensures Heard(ApplyObservation(cfg, s, NEWS, "link", 10))
  {
    Offering(cfg, s, NEWS);
    NewsIsAccepted(cfg.policy);
  }

  lemma {:induction false} Hearing(cfg: Config)
    requires HasRoom(cfg)
    ensures Introduced(After(cfg, BEFORE_REPLAY, 2)) && Heard(After(cfg, BEFORE_REPLAY, 3))
  {
    FirstRecords(cfg);
    ThirdRecord(cfg);
    NewsIsHeard(cfg, After(cfg, BEFORE_REPLAY, 2));
  }

  lemma {:induction false} OnlyFirstGeneration(cfg: Config)
    requires HasRoom(cfg)
    ensures forall k | 0 <= k <= 3 :: CurrentGeneration(After(cfg, BEFORE_REPLAY, k).registry, LINK) in {0, 1}
  {
    FirstRecords(cfg);
    Hearing(cfg);
    FirstGeneration(After(cfg, BEFORE_REPLAY, 2));
    FirstGeneration(After(cfg, BEFORE_REPLAY, 3));
  }

  lemma {:induction false} FirstGeneration(s: Observatory)
    requires Introduced(s) || Heard(s)
    ensures CurrentGeneration(s.registry, LINK) == 1
  {
  }

  lemma {:induction false} Replaying(cfg: Config, s: Observatory)
    requires HasRoom(cfg) && Heard(s)
    ensures CallsOf(cfg, s, Observed(REPLAY, "link", 10)) == [CallOf(REPLAY)]
    ensures Answer(cfg.policy, s.store, CallOf(REPLAY)).fence == RevisionReplay
    ensures ApplyObservation(cfg, s, REPLAY, "link", 10).stats.accepted == 1 && Adopts(cfg, s.registry, REPLAY, "link")
    ensures CurrentGeneration(ApplyObservation(cfg, s, REPLAY, "link", 10).registry, LINK) == 2
  {
    Offering(cfg, s, REPLAY);
    ReplayIsFenced(cfg.policy, s.store);
  }

  function LineInput(policy: Policy, generation: GenerationId): Classifier.Input {
    Classifier.Input(policy, LINE, LINK, generation, 10, [])
  }

  lemma {:induction false} NewsStands(policy: Policy, s: Observatory)
    requires Heard(s) && FreshnessPolicyFor(policy, OperState).freshWithin >= 0
    ensures Soundness.Stands(LineInput(policy, 1), s.store, Classifier.OPER_KEY, EvidenceOf(NEWS, CHIEF, 10))
  {
  }

  /**
   From the empty observatory, under any configuration with room: a source, a link of generation 1
   and its reading of revision 5, which is accepted and stands. The source's revision 3 under generation
   2 is refused as a replay, yet leaves the link with generation 2 and with nothing that stands.
   */
  lemma {:induction false} RefusalCanMoveGeneration(cfg: Config)
    requires HasRoom(cfg) && FreshnessPolicyFor(cfg.policy, OperState).freshWithin >= 0
    ensures
      var s := Process(cfg, EMPTY_OBSERVATORY, BEFORE_REPLAY);
      && CurrentGeneration(s.registry, LINK) == 1
      && Soundness.Stands(LineInput(cfg.policy, 1), s.store, Classifier.OPER_KEY, EvidenceOf(NEWS, CHIEF, 10))
      && CallsOf(cfg, s, Observed(REPLAY, "link", 10)) == [CallOf(REPLAY)]
      && Answer(cfg.policy, s.store, CallOf(REPLAY)).fence == RevisionReplay
    ensures
      var after := ApplyObservation(cfg, Process(cfg, EMPTY_OBSERVATORY, BEFORE_REPLAY), REPLAY, "link", 10);
      && CurrentGeneration(after.registry, LINK) == 2
      && forall key, e :: !Soundness.Stands(LineInput(cfg.policy, 2), after.store, key, e)
  {
    var s := Process(cfg, EMPTY_OBSERVATORY, BEFORE_REPLAY);
    Hearing(cfg);
    OnlyFirstGeneration(cfg);
    assert BEFORE_REPLAY[..3] == BEFORE_REPLAY;
    FirstGeneration(s);
    NewsStands(cfg.policy, s);
    Replaying(cfg, s);
    RefusedGenerationSilences(cfg, BEFORE_REPLAY, REPLAY, "link", 10, LineInput(cfg.policy, 2));
  }
}

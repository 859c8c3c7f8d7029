/**
 Refusals that leave a mark on the stream. An authority downgrade or a full store refuses after the
 scope switch and the gap count were applied (src/store/evidence_store.cpp:93-166), so a refusal is
 not always without effect, and unequal gap epochs do not mean that a revision was lost.
 */
module LateFences {
  import opened Checked
  import opened Domain
  import opened StoreSpec
  import opened StoreStreams
  import opened StoreReplay

  /** The observation's scope is neither the one in force nor a retained one. */
  predicate Switches(was: StreamState, scope: SequenceScope) {
    !was.hasScope || (was.scope != scope && scope !in was.retiredScopes)
  }

  /** The observation's revision leaves out some after the last one of the scope in force. */
  predicate Skips(was: StreamState, o: Observation) {
    was.hasScope && was.scope == ScopeOf(o.provenance) && was.hasSequence && o.provenance.sequence > was.lastSequence + 1
  }

  /** What is known before the call: it passes the entry fences, moves the stream on, and meets a late fence. */
  predicate Marks(policy: Policy, st: StoreState, c: Call) {
    var was, o := StreamOf(st, c.Source()), c.observation;
    && EntryFence(policy, o, c.context) == FenceReason.None
    && (Switches(was, c.Scope()) || Skips(was, o))
    && LateFence(policy, st.slots, o, c.context.source.value.authority) != FenceReason.None
  }

  lemma {:induction false} RefusalMarksIff(policy: Policy, st: StoreState, c: Call)
    requires var was := StreamOf(st, c.Source()); !was.hasScope ==> !was.hasSequence
    ensures
      var was, next, answer := StreamOf(st, c.Source()), StreamOf(Apply(policy, st, c), c.Source()), Answer(policy, st, c);
      && (!answer.accepted && next.(fenced := was.fenced) != was <==> Marks(policy, st, c))
      && (Marks(policy, st, c) ==> answer.fence == LateFence(policy, st.slots, c.observation, c.context.source.value.authority))
  {
    var o := c.observation;
    if EntryFence(policy, o, c.context) == FenceReason.None {
      var a := Admit(StreamOf(st, c.Source()), o);
      SettleStream(policy, st, o, c.context.source.value, c.now, a);
      AdmissionMarksIff(StreamOf(st, c.Source()), o);
    }
  }

  /** An admission moves the stream on exactly when it switches the scope or skips a revision, and then meets no fence. */
  lemma {:induction false} AdmissionMarksIff(was: StreamState, o: Observation)
    requires !was.hasScope ==> !was.hasSequence
    ensures
      var a := Admit(was, o);
      && (a.stream.(fenced := was.fenced) != was <==> Switches(was, ScopeOf(o.provenance)) || Skips(was, o))
      && (a.stream.(fenced := was.fenced) != was ==> a.fence == FenceReason.None)
  {
  }

  /**
   After any run, a call is refused and yet changes its source's stream, beyond the fence count, exactly
   when it passes the entry fences, its scope is neither in force nor retained or its revision skips
   some, and an authority downgrade or a full store awaits it. That is then the answer.
   */
  lemma {:induction false} RefusedCallMarksIff(policy: Policy, calls: seq<Call>, c: Call)
    ensures
      var st := Run(policy, EMPTY_STORE, calls);
      var was, next, answer := StreamOf(st, c.Source()), StreamOf(Apply(policy, st, c), c.Source()), Answer(policy, st, c);
      && (!answer.accepted && next.(fenced := was.fenced) != was <==> Marks(policy, st, c))
      && (Marks(policy, st, c) ==> answer.fence == LateFence(policy, st.slots, c.observation, c.context.source.value.authority))
  {
    assert calls[..|calls|] == calls;
    NewStreamHasNoSequence(policy, calls, |calls|, c.Source());
    RefusalMarksIff(policy, Run(policy, EMPTY_STORE, calls), c);
  }

  // ---------------------------------------------------------------------------
  // A run in which it happens
  // ---------------------------------------------------------------------------

  const LINK: LinkId := 7
  const LINE: LinkFacts := LinkFacts(LINK, "link", 0, 0, 0, 0, Physical, 1, false, 0, 0, Real)
  const CHIEF: SourceRecord := SourceRecord(1, "chief", Primary, Real, true, false)
  const DEPUTY: SourceRecord := SourceRecord(2, "deputy", Secondary, Real, true, false)
  const INBOUND: MetricKey := MetricKey(Octets, In, ErrorClass.None)
  const OUTBOUND: MetricKey := MetricKey(Octets, Out, ErrorClass.None)

  /** A counter reading of one of the two sources, in its only scope and the link's only generation. */
  function Reading(source: SourceRecord, key: MetricKey, sequence: U64, at: TimePoint): Call {
    Call(Observation(100 + sequence % 8, Provenance(source.id, 1, 1, 3, sequence), LINK, key,
                     Counter(CounterReading(sequence, Bits64, false)), at, at),
         AcceptContext(Some(source), 3, true), at)
  }

  const FIRST: Call := Reading(CHIEF, INBOUND, 1, 10)
  const SECOND: Call := Reading(DEPUTY, OUTBOUND, 1, 5)
  const OUTRANKED: Call := Reading(DEPUTY, INBOUND, 5, 5)
  const THIRD: Call := Reading(DEPUTY, OUTBOUND, 2, 6)

  const MARKING_RUN: seq<Call> := [FIRST, SECOND, OUTRANKED, THIRD]

  /** Any policy with room for one link and one piece of evidence, as every valid policy has. */
  predicate Usable(policy: Policy) { policy.limits.maxLinks > 0 && policy.limits.maxEvidencePerKey > 0 }

  lemma {:induction false} ReadingEnters(policy: Policy, source: SourceRecord, key: MetricKey, sequence: U64, at: TimePoint)
    requires source == CHIEF || source == DEPUTY
    requires key == INBOUND || key == OUTBOUND
    ensures EntryFence(policy, Reading(source, key, sequence, at).observation, Reading(source, key, sequence, at).context) == FenceReason.None
  {
  }

  /** An admitted call that no late fence refuses is recorded. */
  lemma {:induction false} Recording(policy: Policy, st: StoreState, c: Call)
    requires EntryFence(policy, c.observation, c.context) == FenceReason.None
    requires Admit(StreamOf(st, c.Source()), c.observation).fence == FenceReason.None
    requires LateFence(policy, st.slots, c.observation, c.context.source.value.authority) == FenceReason.None
    ensures
      var a, next, answer := Admit(StreamOf(st, c.Source()), c.observation), Apply(policy, st, c), Answer(policy, st, c);
      && answer.accepted && answer.fence == FenceReason.None && answer.revisionGap == a.gap && answer.scopeChanged == a.scopeChanged
      && next.slots == st.slots[c.Key() := RecordIn(policy, SlotOf(st, c.Key()), c.observation, c.context.source.value, c.now, a.stream.gapCount, a.gap)]
      && next.streams == st.streams[c.Source() := a.stream.(hasSequence := true, lastSequence := c.Sequence(),
                                                            lastObservation := c.observation.id, accepted := a.stream.accepted + 1)]
  {
  }

  /** An admitted call that is outranked leaves its stream as admitted, counting one fence more. */
  lemma {:induction false} Downgrading(policy: Policy, st: StoreState, c: Call)
    requires EntryFence(policy, c.observation, c.context) == FenceReason.None
    requires Admit(StreamOf(st, c.Source()), c.observation).fence == FenceReason.None
    requires LateFence(policy, st.slots, c.observation, c.context.source.value.authority) == AuthorityDowngrade
    ensures
      var a, next, answer := Admit(StreamOf(st, c.Source()), c.observation), Apply(policy, st, c), Answer(policy, st, c);
      && !answer.accepted && answer.fence == AuthorityDowngrade && answer.revisionGap == a.gap
      && next.slots == st.slots && StreamOf(next, c.Source()) == a.stream.(fenced := a.stream.fenced + 1)
  {
  }

  /** Each source has its own slot and stream. */
  ghost predicate TwoHeld(st: StoreState) {
    && st.slots.Keys == {FIRST.Key(), SECOND.Key()}
    && st.slots[FIRST.Key()].history == [EvidenceOf(FIRST.observation, CHIEF, 10)]
    && st.slots[SECOND.Key()].history == [EvidenceOf(SECOND.observation, DEPUTY, 5)]
  }

  /** The deputy's stream, with its gap seen or not. */
  function DeputyStream(gap: bool): StreamState {
    var one := if gap then 1 else 0;
    StreamState(true, SECOND.Scope(), true, 1, SECOND.observation.id, gap, [], 1, one, one, 1)
  }

  lemma {:induction false} AfterTwo(policy: Policy)
    requires Usable(policy)
    ensures
      var st := Apply(policy, Apply(policy, EMPTY_STORE, FIRST), SECOND);
      && Answer(policy, Apply(policy, EMPTY_STORE, FIRST), SECOND).accepted
      && TwoHeld(st) && StreamOf(st, 2) == DeputyStream(false)
  {
    var st := Apply(policy, EMPTY_STORE, FIRST);
    ReadingEnters(policy, CHIEF, INBOUND, 1, 10);
    Recording(policy, EMPTY_STORE, FIRST);
    ReadingEnters(policy, DEPUTY, OUTBOUND, 1, 5);
    Recording(policy, st, SECOND);
  }

  /** The deputy's revision 5 reveals a gap and is then outranked: refused, with the gap counted. */
  lemma {:induction false} OutrankedGap(policy: Policy, st: StoreState)
    requires TwoHeld(st) && StreamOf(st, 2) == DeputyStream(false)
    ensures
      var next, answer := Apply(policy, st, OUTRANKED), Answer(policy, st, OUTRANKED);
      && answer.fence == AuthorityDowngrade && !answer.accepted && answer.revisionGap
      && TwoHeld(next) && StreamOf(next, 2) == DeputyStream(true)
  {
    ReadingEnters(policy, DEPUTY, INBOUND, 5, 5);
    assert Outranked(st.slots[FIRST.Key()].history, OUTRANKED.observation, Secondary);
    Downgrading(policy, st, OUTRANKED);
  }

  lemma {:induction false} ThirdIsAccepted(policy: Policy, st: StoreState)
    requires Usable(policy) && TwoHeld(st) && StreamOf(st, 2) == DeputyStream(true)
    ensures Answer(policy, st, THIRD).accepted && StreamOf(Apply(policy, st, THIRD), 2).gapCount == 1
  {
    ReadingEnters(policy, DEPUTY, OUTBOUND, 2, 6);
    assert st.slots[SECOND.Key()].history[..0] == [];
    Recording(policy, st, THIRD);
  }

  lemma {:induction false} MarkingStates(policy: Policy)
    ensures
      var one := Apply(policy, EMPTY_STORE, FIRST);
      var two := Apply(policy, one, SECOND);
      var three := Apply(policy, two, OUTRANKED);
      && StateAfter(policy, MARKING_RUN, 1) == one && StateAfter(policy, MARKING_RUN, 2) == two
      && StateAfter(policy, MARKING_RUN, 3) == three && StateAfter(policy, MARKING_RUN, 4) == Apply(policy, three, THIRD)
  {
    RunStep(policy, MARKING_RUN, 0);
    RunStep(policy, MARKING_RUN, 1);
    RunStep(policy, MARKING_RUN, 2);
    RunStep(policy, MARKING_RUN, 3);
  }

  /**
   A run under any usable policy. The third call is refused as an authority downgrade, yet its gap is
   counted on the stream. The second and fourth calls, of the same source and scope, are accepted
   with consecutive revisions and unequal gap epochs: between them no revision is missing.
   */
  lemma {:induction false} UnequalGapEpochsLoseNothing(policy: Policy)
    requires Usable(policy)
    ensures
      && AnswerAt(policy, MARKING_RUN, 2).fence == AuthorityDowngrade && AnswerAt(policy, MARKING_RUN, 2).revisionGap
      && StreamOf(StateAfter(policy, MARKING_RUN, 2), 2).gapCount == 0 && StreamOf(StateAfter(policy, MARKING_RUN, 3), 2).gapCount == 1
    ensures
      && AnswerAt(policy, MARKING_RUN, 1).accepted && AnswerAt(policy, MARKING_RUN, 3).accepted
      && SECOND.Scope() == THIRD.Scope() && THIRD.Sequence() == SECOND.Sequence() + 1
      && GapEpochAt(policy, MARKING_RUN, 1) != GapEpochAt(policy, MARKING_RUN, 3)
  {
    MarkingStates(policy);
    RunStep(policy, MARKING_RUN, 1);
    RunStep(policy, MARKING_RUN, 2);
    RunStep(policy, MARKING_RUN, 3);
    AfterTwo(policy);
    OutrankedGap(policy, StateAfter(policy, MARKING_RUN, 2));
    ThirdIsAccepted(policy, StateAfter(policy, MARKING_RUN, 3));
  }
}

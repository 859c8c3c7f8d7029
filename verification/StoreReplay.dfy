/**
 Replays and gaps over whole runs: when a resubmitted observation is refused, and what equal gap
 epochs say about the revisions in between.
 */
module StoreReplay {
  import opened Domain
  import opened Retirement
  import opened StoreSpec
  import opened StoreStreams

  // ---------------------------------------------------------------------------
  // Replay
  // ---------------------------------------------------------------------------

  /** The stream still remembers that this observation's place has been passed. */
  predicate Remembered(stream: StreamState, o: Observation) {
    || ScopeOf(o.provenance) in stream.retiredScopes
    || (stream.hasSequence && stream.scope == ScopeOf(o.provenance) && o.provenance.sequence <= stream.lastSequence)
  }

  lemma {:induction false} RememberedIsRefused(stream: StreamState, o: Observation)
    requires stream.hasScope && stream.scope !in stream.retiredScopes && Remembered(stream, o)
    ensures
      var a := Admit(stream, o);
      && a.fence != FenceReason.None && a.stream == stream.(fenced := stream.fenced + 1)
      && !a.gap && !a.scopeChanged
  {
  }

  lemma {:induction false} ForgottenIsAdmitted(stream: StreamState, o: Observation)
    requires stream.hasScope && !Remembered(stream, o)
    ensures Admit(stream, o).fence == FenceReason.None
  {
  }

  /** The state after a replay: nothing but fence and duplicate counters moved. */
  ghost predicate OnlyFenceCountersMoved(st: StoreState, after: StoreState, source: SourceId) {
    && after.slots == st.slots
    && (after.streams == st.streams
        || after.streams == st.streams[source := StreamOf(st, source).(fenced := StreamOf(st, source).fenced + 1)])
    && after.totalAccepted == st.totalAccepted && after.revisionGaps == st.revisionGaps
    && after.counterResets == st.counterResets && after.counterWraps == st.counterWraps
    && after.totalFenced == st.totalFenced + 1
  }

  /** Whatever the context and the instant, a remembered observation is refused without effect. */
  lemma {:induction false} ReplayIsNoOp(policy: Policy, st: StoreState, replay: Call)
    requires
      var stream := StreamOf(st, replay.Source());
      stream.hasScope && stream.scope !in stream.retiredScopes && Remembered(stream, replay.observation)
    ensures !Answer(policy, st, replay).accepted
    ensures OnlyFenceCountersMoved(st, Apply(policy, st, replay), replay.Source())
  {
    var o := replay.observation;
    RememberedIsRefused(StreamOf(st, replay.Source()), o);
  }

  /** No authority outranks Primary. */
  lemma {:induction false} PrimaryNotOutranked(history: seq<Evidence>, o: Observation)
    ensures !Outranked(history, o, Primary)
  {
    if history != [] {
      PrimaryNotOutranked(history[..|history| - 1], o);
    }
  }

  /** The most permissive context: a registered primary source and no current generation. */
  function Permissive(ctx: AcceptContext): AcceptContext
    requires ctx.source.Some?
  {
    AcceptContext(Some(ctx.source.value.(authority := Primary)), 0, true)
  }

  /** A forgotten observation whose slot exists is accepted again under the permissive context. */
  lemma {:induction false} ForgottenIsAccepted(policy: Policy, st: StoreState, o: Observation, ctx: AcceptContext)
    requires StreamOf(st, o.provenance.source).hasScope && !Remembered(StreamOf(st, o.provenance.source), o)
    requires EntryFence(policy, o, ctx) == FenceReason.None && SlotKeyOf(o) in st.slots
    ensures OutcomeOf(policy, st, o, Permissive(ctx)).accepted
  {
    ForgottenIsAdmitted(StreamOf(st, o.provenance.source), o);
    PrimaryNotOutranked(st.slots[SlotKeyOf(o)].history, o);
    assert EntryFence(policy, o, Permissive(ctx)) == FenceReason.None;
  }

  // ---------------------------------------------------------------------------
  // Over a trace
  // ---------------------------------------------------------------------------

  lemma {:induction false} AcceptedStreamExists(t: Trace, i: nat, n: nat)
    requires t.Valid() && t.AcceptedAt(i) && i < n <= |t.calls|
    ensures t.streams[n].hasScope
    decreases n
  {
    assert t.Moves(n - 1);
    if i < n - 1 {
      AcceptedStreamExists(t, i, n - 1);
    }
  }

  /** While the scope does not change, the stream stays at or past the accepted revision. */
  lemma {:induction false} StillInForce(t: Trace, i: nat, n: nat)
    requires t.Valid() && t.AcceptedAt(i) && i < n <= |t.calls|
    requires t.streams[n].scopeChanges == t.streams[i + 1].scopeChanges
    ensures Remembered(t.streams[n], t.calls[i].observation)
    ensures t.streams[n].scope == t.calls[i].Scope() && t.streams[n].hasSequence && t.calls[i].Sequence() <= t.streams[n].lastSequence
    decreases n
  {
    assert t.Moves(n - 1);
    if i < n - 1 {
      CountersGrow(t, i + 1, n - 1);
      CountersGrow(t, n - 1, n);
      StillInForce(t, i, n - 1);
    }
  }

  /** As long as a source superseded at most 32 scopes since, what it had accepted is remembered. */
  lemma {:induction false} AcceptedIsRemembered(t: Trace, i: nat, n: nat)
    requires t.Valid() && t.AcceptedAt(i) && i < n <= |t.calls|
    requires t.streams[n].scopeChanges <= t.streams[i + 1].scopeChanges + MAX_RETIRED_SCOPES
    ensures Remembered(t.streams[n], t.calls[i].observation)
  {
    CountersGrow(t, i + 1, n);
    if t.streams[n].scopeChanges == t.streams[i + 1].scopeChanges {
      StillInForce(t, i, n);
    } else {
      AcceptedScopePlace(t, i, n);
      TraceScopes(t, n);
      var all, place := t.Adopted(n), t.streams[i + 1].scopeChanges;
      KeptAt(all[..|all| - 1], MAX_RETIRED_SCOPES, place - 1);
    }
  }

  /** Some accepted call of the trace between i and n, in the same scope, carried this revision. */
  ghost predicate RevisionSeen(t: Trace, i: nat, n: nat, r: int)
    requires i < n <= |t.calls|
  {
    exists k :: i <= k < n && t.AcceptedAt(k) && t.calls[k].Scope() == t.calls[i].Scope() && t.calls[k].Sequence() == r
  }

  /** Every revision in the range was accepted between i and n. */
  ghost predicate AllSeen(t: Trace, i: nat, n: nat, low: int, high: int)
    requires i < n <= |t.calls|
  {
    forall r :: low <= r <= high ==> RevisionSeen(t, i, n, r)
  }

  /** All revisions from the i-th call's up to the stream's latest were accepted. */
  ghost predicate Contiguous(t: Trace, i: nat, n: nat)
    requires t.Valid() && i < n <= |t.calls|
  {
    var stream := t.streams[n];
    && stream.hasScope && stream.scope == t.calls[i].Scope()
    && stream.hasSequence && t.calls[i].Sequence() <= stream.lastSequence
    && AllSeen(t, i, n, t.calls[i].Sequence(), stream.lastSequence)
  }

  /** Scope changes and gaps only ever accumulate. */
  lemma {:induction false} CountersGrow(t: Trace, m: nat, n: nat)
    requires t.Valid() && m <= n <= |t.calls|
    ensures t.streams[m].scopeChanges <= t.streams[n].scopeChanges
    ensures t.streams[m].gapCount <= t.streams[n].gapCount
    decreases n
  {
    if m < n {
      CountersGrow(t, m, n - 1);
      assert t.Moves(n - 1);
    }
  }

  lemma {:induction false} ContiguousStep(t: Trace, i: nat, n: nat)
    requires t.Valid() && i < n < |t.calls| && Contiguous(t, i, n)
    requires t.streams[n + 1].scopeChanges == t.streams[n].scopeChanges && t.streams[n + 1].gapCount == t.streams[n].gapCount
    ensures Contiguous(t, i, n + 1)
  {
    assert t.Moves(n);
    var m := n + 1;
    forall r ensures t.calls[i].Sequence() <= r <= t.streams[m].lastSequence ==> RevisionSeen(t, i, m, r) {
      if t.calls[i].Sequence() <= r <= t.streams[n].lastSequence {
        assert RevisionSeen(t, i, n, r);
      } else if t.calls[i].Sequence() <= r <= t.streams[n + 1].lastSequence {
        assert t.AcceptedAt(n) && t.calls[n].Sequence() == r;
      }
    }
  }

  /** With neither a scope change nor a gap since the i-th call, nothing is missing. */
  lemma {:induction false} UndisturbedIsContiguous(t: Trace, i: nat, n: nat)
    requires t.Valid() && t.AcceptedAt(i) && i < n <= |t.calls|
    requires t.streams[i + 1].scopeChanges == t.streams[n].scopeChanges && t.streams[i + 1].gapCount == t.streams[n].gapCount
    ensures Contiguous(t, i, n)
    decreases n
  {
    if n == i + 1 {
      assert t.Moves(i);
      assert RevisionSeen(t, i, n, t.calls[i].Sequence());
    } else {
      CountersGrow(t, i + 1, n - 1);
      CountersGrow(t, n - 1, n);
      UndisturbedIsContiguous(t, i, n - 1);
      ContiguousStep(t, i, n - 1);
    }
  }

  lemma {:induction false} AdoptedGrows(t: Trace, m: nat, n: nat)
    requires m <= n <= |t.calls| && |t.answers| == |t.calls|
    ensures t.Adopted(m) <= t.Adopted(n)
    decreases n
  {
    if m < n {
      AdoptedGrows(t, m, n - 1);
    }
  }

  /** An accepted call's scope is the one its source had adopted last, at its place in any longer list. */
  lemma {:induction false} AcceptedScopePlace(t: Trace, i: nat, n: nat)
    requires t.Valid() && t.AcceptedAt(i) && i < n <= |t.calls|
    ensures
      var all, place := t.Adopted(n), t.streams[i + 1].scopeChanges;
      0 < place <= |all| && all[place - 1] == t.calls[i].Scope()
  {
    assert t.Moves(i);
    TraceScopes(t, i + 1);
    AdoptedGrows(t, i + 1, n);
  }

  /** Within 32 scope changes, two accepted calls in one scope saw no scope change between them. */
  lemma {:induction false} SameScopeSameChanges(t: Trace, i: nat, j: nat)
    requires t.Valid() && i < j && t.AcceptedAt(i) && t.AcceptedAt(j) && t.calls[i].Scope() == t.calls[j].Scope()
    requires t.streams[j + 1].scopeChanges <= t.streams[i + 1].scopeChanges + MAX_RETIRED_SCOPES
    ensures t.streams[i + 1].scopeChanges == t.streams[j + 1].scopeChanges
  {
    AcceptedScopePlace(t, i, j + 1);
    AcceptedScopePlace(t, j, j + 1);
    TraceScopes(t, j + 1);
    CountersGrow(t, i + 1, j + 1);
  }

  // ---------------------------------------------------------------------------
  // The theorems, for every run of the store
  // ---------------------------------------------------------------------------

  /** A slot, once created, stays. */
  lemma {:induction false} SlotsStay(policy: Policy, st: StoreState, c: Call, key: SlotKey)
    ensures key in st.slots ==> key in Apply(policy, st, c).slots
    ensures Answer(policy, st, c).accepted ==> c.Key() in Apply(policy, st, c).slots
    ensures Answer(policy, st, c).accepted ==> EntryFence(policy, c.observation, c.context) == FenceReason.None
  {
  }

  lemma {:induction false} NextKeepsSlot(policy: Policy, calls: seq<Call>, n: nat, key: SlotKey)
    requires n < |calls| && key in StateAfter(policy, calls, n).slots
    ensures key in StateAfter(policy, calls, n + 1).slots
  {
    RunStep(policy, calls, n);
    SlotsStay(policy, StateAfter(policy, calls, n), calls[n], key);
  }

  lemma {:induction false} SlotPersists(policy: Policy, calls: seq<Call>, m: nat, n: nat, key: SlotKey)
    requires m <= n <= |calls| && key in StateAfter(policy, calls, m).slots
    ensures key in StateAfter(policy, calls, n).slots
    decreases n
  {
    if m < n {
      SlotPersists(policy, calls, m, n - 1, key);
      NextKeepsSlot(policy, calls, n - 1, key);
    }
  }

  lemma {:induction false} AcceptedSlotExists(policy: Policy, calls: seq<Call>, i: nat)
    requires i < |calls| && AnswerAt(policy, calls, i).accepted
    ensures calls[i].Key() in Run(policy, EMPTY_STORE, calls).slots
    ensures EntryFence(policy, calls[i].observation, calls[i].context) == FenceReason.None
  {
    RunStep(policy, calls, i);
    SlotsStay(policy, StateAfter(policy, calls, i), calls[i], calls[i].Key());
    SlotPersists(policy, calls, i + 1, |calls|, calls[i].Key());
    assert calls[..|calls|] == calls;
  }

  /** How many scopes a source had adopted after the first n calls. */
  function ScopeChangesAt(policy: Policy, calls: seq<Call>, source: SourceId, n: nat): nat
    requires n <= |calls|
  {
    StreamOf(StateAfter(policy, calls, n), source).scopeChanges
  }

  /**
   Exactly when a replay is safe. After any run, resubmitting an accepted observation is refused in
   every context if and only if the stream still remembers it: its scope is among the retained
   superseded scopes, or it is in force with at least that revision.
   */
  lemma {:induction false} ReplayRefusedIff(policy: Policy, calls: seq<Call>, i: nat)
    requires i < |calls| && AnswerAt(policy, calls, i).accepted
    ensures
      var st, o := Run(policy, EMPTY_STORE, calls), calls[i].observation;
      (forall ctx :: !OutcomeOf(policy, st, o, ctx).accepted) <==> Remembered(StreamOf(st, calls[i].Source()), o)
  {
    var source := calls[i].Source();
    TraceValid(policy, calls, source);
    AcceptedStreamExists(TraceOf(policy, calls, source), i, |calls|);
    RetiredScopesExact(policy, calls, source);
    AcceptedSlotExists(policy, calls, i);
    RefusedIff(policy, Run(policy, EMPTY_STORE, calls), calls[i].observation, calls[i].context);
  }

  lemma {:induction false} RefusedIff(policy: Policy, st: StoreState, o: Observation, ctx: AcceptContext)
    requires StreamOf(st, o.provenance.source).hasScope && RetiredWellFormed(StreamOf(st, o.provenance.source))
    requires EntryFence(policy, o, ctx) == FenceReason.None && SlotKeyOf(o) in st.slots
    ensures (forall ctx' :: !OutcomeOf(policy, st, o, ctx').accepted) <==> Remembered(StreamOf(st, o.provenance.source), o)
  {
    if Remembered(StreamOf(st, o.provenance.source), o) {
      forall ctx' ensures !OutcomeOf(policy, st, o, ctx').accepted {
        ReplayIsNoOp(policy, st, Call(o, ctx', 0));
      }
    } else {
      ForgottenIsAccepted(policy, st, o, ctx);
    }
  }

  /**
   Replay is a no-op: in any run where the source superseded at most 32 scopes since it had an
   observation accepted, resubmitting that observation, under any context and at any instant, is
   refused and changes only fence and duplicate counters.
   */
  lemma {:induction false} AcceptedReplayIsNoOp(policy: Policy, calls: seq<Call>, i: nat, ctx: AcceptContext, now: TimePoint)
    requires i < |calls| && AnswerAt(policy, calls, i).accepted
    requires ScopeChangesAt(policy, calls, calls[i].Source(), |calls|)
          <= ScopeChangesAt(policy, calls, calls[i].Source(), i + 1) + MAX_RETIRED_SCOPES
    ensures
      var st, replay := Run(policy, EMPTY_STORE, calls), Call(calls[i].observation, ctx, now);
      && !Answer(policy, st, replay).accepted
      && OnlyFenceCountersMoved(st, Apply(policy, st, replay), replay.Source())
  {
    var source := calls[i].Source();
    var t := TraceOf(policy, calls, source);
    TraceValid(policy, calls, source);
    AcceptedIsRemembered(t, i, |calls|);
    AcceptedStreamExists(t, i, |calls|);
    RetiredScopesExact(policy, calls, source);
    ReplayIsNoOp(policy, Run(policy, EMPTY_STORE, calls), Call(calls[i].observation, ctx, now));
  }

  /** The gap epoch an accepted call carries: the gap count of its stream once it was admitted. */
  function GapEpochAt(policy: Policy, calls: seq<Call>, i: nat): nat
    requires i < |calls|
  {
    StreamOf(StateAfter(policy, calls, i + 1), calls[i].Source()).gapCount
  }

  /**
   Gap-epoch soundness. Whenever a source superseded at most 32 scopes between them, two accepted
   calls of it in one scope with equal gap epochs have every revision in between accepted: no
   integer from the first revision to the second is missing.
   */
  lemma {:induction false} EqualGapEpochsMissNothing(policy: Policy, calls: seq<Call>, i: nat, j: nat, r: int)
    requires i < j < |calls| && AnswerAt(policy, calls, i).accepted && AnswerAt(policy, calls, j).accepted
    requires calls[i].Source() == calls[j].Source() && calls[i].Scope() == calls[j].Scope()
    requires GapEpochAt(policy, calls, i) == GapEpochAt(policy, calls, j)
    requires ScopeChangesAt(policy, calls, calls[i].Source(), j + 1)
          <= ScopeChangesAt(policy, calls, calls[i].Source(), i + 1) + MAX_RETIRED_SCOPES
    ensures calls[i].Sequence() < calls[j].Sequence()
    ensures calls[i].Sequence() <= r <= calls[j].Sequence() ==>
              exists k :: i <= k <= j && AnswerAt(policy, calls, k).accepted && calls[k].Source() == calls[i].Source()
                          && calls[k].Scope() == calls[i].Scope() && calls[k].Sequence() == r
  {
    var t := TraceOf(policy, calls, calls[i].Source());
    TraceValid(policy, calls, calls[i].Source());
    TraceGap(t, i, j);
    if calls[i].Sequence() <= r <= calls[j].Sequence() {
      var k := TraceFilled(t, i, j, r);
      assert AnswerAt(policy, calls, k).accepted;
    }
  }

  lemma {:induction false} TraceFilled(t: Trace, i: nat, j: nat, r: int) returns (k: nat)
    requires t.Valid() && i < j && t.AcceptedAt(i) && t.AcceptedAt(j)
    requires AllSeen(t, i, j + 1, t.calls[i].Sequence(), t.calls[j].Sequence())
    requires t.calls[i].Sequence() <= r <= t.calls[j].Sequence()
    ensures i <= k <= j && t.AcceptedAt(k) && t.calls[k].Scope() == t.calls[i].Scope() && t.calls[k].Sequence() == r
  {
    assert RevisionSeen(t, i, j + 1, r);
    k :| i <= k < j + 1 && t.AcceptedAt(k) && t.calls[k].Scope() == t.calls[i].Scope() && t.calls[k].Sequence() == r;
  }

  lemma {:induction false} TraceGap(t: Trace, i: nat, j: nat)
    requires t.Valid() && i < j && t.AcceptedAt(i) && t.AcceptedAt(j) && t.calls[i].Scope() == t.calls[j].Scope()
    requires t.streams[i + 1].gapCount == t.streams[j + 1].gapCount
    requires t.streams[j + 1].scopeChanges <= t.streams[i + 1].scopeChanges + MAX_RETIRED_SCOPES
    ensures t.calls[i].Sequence() < t.calls[j].Sequence()
    ensures AllSeen(t, i, j + 1, t.calls[i].Sequence(), t.calls[j].Sequence())
  {
    SameScopeSameChanges(t, i, j);
    UndisturbedIsContiguous(t, i, j + 1);
    CountersGrow(t, i + 1, j);
    CountersGrow(t, j, j + 1);
    UndisturbedIsContiguous(t, i, j);
    assert t.Moves(j);
  }

  /** The gap epoch stored with a counter sample is the stream's gap count after its call. */
  lemma {:induction false} SampleCarriesGapEpoch(policy: Policy, calls: seq<Call>, i: nat)
    requires i < |calls| && AnswerAt(policy, calls, i).accepted && CarriesCounter(calls[i].observation)
    ensures
      var slots := StateAfter(policy, calls, i + 1).slots;
      && calls[i].Key() in slots && calls[i].Source() in slots[calls[i].Key()].continuity
      && slots[calls[i].Key()].continuity[calls[i].Source()].latest
         == Some(SampleOf(calls[i].observation, GapEpochAt(policy, calls, i)))
  {
    RunStep(policy, calls, i);
  }
}

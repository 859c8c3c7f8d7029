/**
 Beyond 32 superseded scopes the oldest is forgotten (src/store/evidence_store.cpp:107-110): a run in
 which an accepted observation is accepted a second time.
 */
module ForgottenScopes {
  import opened Checked
  import opened Domain
  import opened Retirement
  import opened StoreSpec
  import opened StoreStreams
  import opened StoreReplay
  import opened LateFences

  /** How many epochs the instants can tell apart. */
  const MANY: nat := TWO_63 - 1

  /** The k-th reading of a source that starts a new epoch with every observation. */
  function EpochReading(k: nat): Call
    requires k < MANY
  {
    Call(Observation(k + 1, Provenance(CHIEF.id, 1, k + 1, 3, 1), LINK, INBOUND, Counter(CounterReading(k, Bits64, false)), k, k),
         AcceptContext(Some(CHIEF), 3, true), k)
  }

  function EpochRun(n: nat): seq<Call>
    requires n <= MANY
  {
    if n == 0 then [] else EpochRun(n - 1) + [EpochReading(n - 1)]
  }

  function EpochScopes(n: nat): (scopes: seq<SequenceScope>)
    requires n <= MANY
    ensures |scopes| == n && forall k | 0 <= k < n :: scopes[k] == EpochReading(k).Scope()
  {
    if n == 0 then [] else EpochScopes(n - 1) + [EpochReading(n - 1).Scope()]
  }

  /** What the source's stream looks like after n new epochs. */
  ghost predicate EpochsAdopted(stream: StreamState, n: nat)
    requires n <= MANY
  {
    if n == 0 then stream == NEW_STREAM
    else
      && stream.hasScope && stream.scope == EpochReading(n - 1).Scope() && stream.hasSequence && stream.lastSequence == 1
      && stream.retiredScopes == KeepLast(EpochScopes(n - 1), MAX_RETIRED_SCOPES)
  }

  /** Only this source ever wrote, and only with primary authority. */
  ghost predicate OnlyChief(st: StoreState) {
    st.slots.Keys <= {EpochReading(0).Key()}
    && forall k | k in st.slots :: forall i | 0 <= i < |st.slots[k].history| :: st.slots[k].history[i].authority == Primary
  }

  lemma {:induction false} EpochAdmitted(stream: StreamState, n: nat)
    requires n < MANY && EpochsAdopted(stream, n)
    ensures
      var a := Admit(stream, EpochReading(n).observation);
      && a.fence == FenceReason.None && !a.gap
      && EpochsAdopted(a.stream.(hasSequence := true, lastSequence := 1, lastObservation := n + 1, accepted := a.stream.accepted + 1), n + 1)
  {
    if n > 0 {
      var kept := KeepLast(EpochScopes(n - 1), MAX_RETIRED_SCOPES);
      forall i | 0 <= i < |kept| ensures kept[i] != EpochReading(n).Scope() {
        assert kept[i] == EpochScopes(n - 1)[i + (n - 1 - |kept|)];
      }
      KeepLastTwice(EpochScopes(n - 1), EpochReading(n - 1).Scope(), MAX_RETIRED_SCOPES);
    }
  }

  lemma {:induction false} NotFull(policy: Policy, st: StoreState)
    requires Usable(policy) && OnlyChief(st)
    ensures !Full(policy, st.slots, EpochReading(0).Key())
  {
    var key := EpochReading(0).Key();
    if key !in st.slots {
      assert st.slots.Keys == {};
      assert |st.slots| == |st.slots.Keys|;
    }
  }

  /** An epoch reading meets no fence. */
  lemma {:induction false} EpochUnfenced(policy: Policy, st: StoreState, n: nat)
    requires Usable(policy) && n < MANY && OnlyChief(st)
    ensures
      var c := EpochReading(n);
      && EntryFence(policy, c.observation, c.context) == FenceReason.None
      && LateFence(policy, st.slots, c.observation, Primary) == FenceReason.None
  {
    var c := EpochReading(n);
    NotFull(policy, st);
    if c.Key() in st.slots {
      PrimaryNotOutranked(st.slots[c.Key()].history, c.observation);
    }
  }

  lemma {:induction false} StillOnlyChief(policy: Policy, st: StoreState, n: nat, next: StoreState, gapEpoch: nat, gap: bool)
    requires n < MANY && OnlyChief(st)
    requires
      var c := EpochReading(n);
      next.slots == st.slots[c.Key() := RecordIn(policy, SlotOf(st, c.Key()), c.observation, CHIEF, c.now, gapEpoch, gap)]
    ensures OnlyChief(next)
  {
    var c := EpochReading(n);
    var was, now := SlotOf(st, c.Key()).history, next.slots[c.Key()].history;
    assert now == KeepLast(was + [EvidenceOf(c.observation, CHIEF, c.now)], policy.limits.maxEvidencePerKey);
  }

  lemma {:induction false} EpochStep(policy: Policy, st: StoreState, n: nat)
    requires Usable(policy) && n < MANY && OnlyChief(st) && EpochsAdopted(StreamOf(st, CHIEF.id), n)
    ensures
      var next := Apply(policy, st, EpochReading(n));
      && Answer(policy, st, EpochReading(n)).accepted
      && OnlyChief(next) && EpochsAdopted(StreamOf(next, CHIEF.id), n + 1)
  {
    var c, a := EpochReading(n), Admit(StreamOf(st, CHIEF.id), EpochReading(n).observation);
    EpochUnfenced(policy, st, n);
    EpochAdmitted(StreamOf(st, CHIEF.id), n);
    Recording(policy, st, c);
    StillOnlyChief(policy, st, n, Apply(policy, st, c), a.stream.gapCount, a.gap);
  }

  lemma {:induction false} EpochRunShape(n: nat)
    requires n <= MANY
    ensures |EpochRun(n)| == n && forall k | 0 <= k < n :: EpochRun(n)[k] == EpochReading(k)
    ensures forall k | 0 <= k <= n :: EpochRun(n)[..k] == EpochRun(k)
  {
    if n > 0 {
      EpochRunShape(n - 1);
      forall k | 0 <= k <= n ensures EpochRun(n)[..k] == EpochRun(k) {
        if k < n {
          assert EpochRun(n)[..k] == EpochRun(n - 1)[..k];
        }
      }
    }
  }

  ghost predicate EpochState(st: StoreState, n: nat)
    requires n <= MANY
  {
    OnlyChief(st) && EpochsAdopted(StreamOf(st, CHIEF.id), n)
  }

  lemma {:induction false} RunGrows(policy: Policy, n: nat)
    requires n < MANY
    ensures Run(policy, EMPTY_STORE, EpochRun(n + 1)) == Apply(policy, Run(policy, EMPTY_STORE, EpochRun(n)), EpochReading(n))
  {
    EpochRunShape(n + 1);
  }

  lemma {:induction false} EpochNext(policy: Policy, n: nat)
    requires Usable(policy) && n < MANY && EpochState(Run(policy, EMPTY_STORE, EpochRun(n)), n)
    ensures Answer(policy, Run(policy, EMPTY_STORE, EpochRun(n)), EpochReading(n)).accepted
    ensures EpochState(Run(policy, EMPTY_STORE, EpochRun(n + 1)), n + 1)
  {
    RunGrows(policy, n);
    EpochStep(policy, Run(policy, EMPTY_STORE, EpochRun(n)), n);
  }

  lemma {:induction false} EpochsRun(policy: Policy, n: nat)
    requires Usable(policy) && n <= MANY
    ensures EpochState(Run(policy, EMPTY_STORE, EpochRun(n)), n)
  {
    if n > 0 {
      EpochsRun(policy, n - 1);
      EpochNext(policy, n - 1);
    }
  }

  lemma {:induction false} FirstIsAccepted(policy: Policy, n: nat)
    requires Usable(policy) && 0 < n <= MANY
    ensures |EpochRun(n)| == n && EpochRun(n)[0] == EpochReading(0) && AnswerAt(policy, EpochRun(n), 0).accepted
  {
    EpochRunShape(n);
    EpochsRun(policy, 0);
    EpochNext(policy, 0);
    assert EpochRun(n)[..0] == EpochRun(0);
  }

  /**
   Under any usable policy, in a run of n observations that each start a new epoch, the first
   observation is remembered for 33 of them and forgotten from the 34th on: its replay, in the very
   context it came in, is refused up to n = 33 and accepted again afterwards.
   */
  lemma {:induction false} ReplayAcceptedFrom34(policy: Policy, n: nat)
    requires Usable(policy) && 0 < n <= MANY
    ensures
      && |EpochRun(n)| == n && EpochRun(n)[0] == EpochReading(0) && AnswerAt(policy, EpochRun(n), 0).accepted
      && (Answer(policy, Run(policy, EMPTY_STORE, EpochRun(n)), EpochReading(0)).accepted <==> n >= 34)
  {
    FirstIsAccepted(policy, n);
    EpochsRun(policy, n);
    var st, c := Run(policy, EMPTY_STORE, EpochRun(n)), EpochReading(0);
    var stream := StreamOf(st, CHIEF.id);
    var kept := KeepLast(EpochScopes(n - 1), MAX_RETIRED_SCOPES);
    if n >= 34 {
      forall i | 0 <= i < |kept| ensures kept[i] != c.Scope() {
        assert kept[i] == EpochScopes(n - 1)[i + (n - 1 - |kept|)];
      }
      EpochUnfenced(policy, st, 0);
      ForgottenIsAdmitted(stream, c.observation);
      Recording(policy, st, c);
    } else {
      if n > 1 {
        KeptAt(EpochScopes(n - 1), MAX_RETIRED_SCOPES, 0);
      }
      RetiredScopesExact(policy, EpochRun(n), CHIEF.id);
      ReplayIsNoOp(policy, st, c);
    }
  }
}

/**
 Runs of one primary source in one scope, with consecutive revisions: every call is accepted, and each
 slot is built from its own calls alone.
 */
module ChiefRuns {
  import opened Checked
  import opened Domain
  import opened StoreSpec
  import opened StoreReplay
  import opened LateFences

  const CHIEF_SCOPE: SequenceScope := SequenceScope(CHIEF.id, 1, 1)

  /** The chief's reading of a key of the link, under generation 3. */
  function Reading(key: MetricKey, payload: MetricPayload, sequence: U64, at: TimePoint): Call {
    Call(Observation(200 + sequence, Provenance(CHIEF.id, 1, 1, 3, sequence), LINK, key, payload, at, at),
         AcceptContext(Some(CHIEF), 3, true), at)
  }

  /** The chief's calls, revision by revision, each of which the entry fences let pass. */
  ghost predicate InTurn(policy: Policy, calls: seq<Call>) {
    forall i | 0 <= i < |calls| ::
      && calls[i].context.source == Some(CHIEF) && calls[i].Scope() == CHIEF_SCOPE && calls[i].Sequence() == i + 1
      && EntryFence(policy, calls[i].observation, calls[i].context) == FenceReason.None
  }

  function WithReading(policy: Policy, slot: Slot, c: Call): Slot {
    RecordIn(policy, slot, c.observation, CHIEF, c.now, 0, false)
  }

  /** The slots after the calls. */
  function Built(policy: Policy, calls: seq<Call>): map<SlotKey, Slot> {
    if calls == [] then map[]
    else
      var before, c := Built(policy, calls[..|calls| - 1]), calls[|calls| - 1];
      before[c.Key() := WithReading(policy, if c.Key() in before then before[c.Key()] else NewSlot(c.observation.key), c)]
  }

  lemma {:induction false} BuiltSize(policy: Policy, calls: seq<Call>)
    ensures |Built(policy, calls)| <= |calls|
  {
    if calls != [] {
      BuiltSize(policy, calls[..|calls| - 1]);
    }
  }

  /** The chief's stream after n calls. */
  ghost predicate Reached(stream: StreamState, n: nat) {
    && (n == 0 ==> stream == NEW_STREAM)
    && (n > 0 ==> stream.hasScope && stream.scope == CHIEF_SCOPE && stream.hasSequence && stream.lastSequence == n)
    && stream.gapCount == 0
  }

  lemma {:induction false} NextAdmitted(stream: StreamState, c: Call, n: nat)
    requires Reached(stream, n) && c.Scope() == CHIEF_SCOPE && c.Sequence() == n + 1
    ensures
      var a := Admit(stream, c.observation);
      && a.fence == FenceReason.None && !a.gap && a.stream.gapCount == 0
      && Reached(a.stream.(hasSequence := true, lastSequence := n + 1, lastObservation := c.observation.id, accepted := a.stream.accepted + 1), n + 1)
  {
  }

  lemma {:induction false} NextRecorded(policy: Policy, st: StoreState, next: StoreState, c: Call, n: nat)
    requires Reached(StreamOf(st, CHIEF.id), n) && c.Scope() == CHIEF_SCOPE && c.Sequence() == n + 1 && c.context.source == Some(CHIEF)
    requires EntryFence(policy, c.observation, c.context) == FenceReason.None && |st.slots| < MaxSlots(policy)
    requires next == Apply(policy, st, c)
    ensures Answer(policy, st, c).accepted && Reached(StreamOf(next, CHIEF.id), n + 1)
    ensures next.slots == st.slots[c.Key() := WithReading(policy, SlotOf(st, c.Key()), c)]
  {
    NextAdmitted(StreamOf(st, CHIEF.id), c, n);
    PrimaryNotOutranked(SlotOf(st, c.Key()).history, c.observation);
    Recording(policy, st, c);
  }

  /** Every such run leaves exactly the slots built from its calls. */
  lemma {:induction false} ChiefRun(policy: Policy, calls: seq<Call>)
    requires InTurn(policy, calls) && |calls| <= MaxSlots(policy)
    ensures
      var st := Run(policy, EMPTY_STORE, calls);
      st.slots == Built(policy, calls) && Reached(StreamOf(st, CHIEF.id), |calls|)
  {
    if calls != [] {
      var n := |calls| - 1;
      ChiefRun(policy, calls[..n]);
      BuiltSize(policy, calls[..n]);
      NextRecorded(policy, Run(policy, EMPTY_STORE, calls[..n]), Run(policy, EMPTY_STORE, calls), calls[n], n);
    }
  }

  /** Every call of such a run is accepted. */
  lemma {:induction false} ChiefAnswer(policy: Policy, calls: seq<Call>, i: nat)
    requires InTurn(policy, calls) && |calls| <= MaxSlots(policy) && i < |calls|
    ensures AnswerAt(policy, calls, i).accepted
  {
    var st := Run(policy, EMPTY_STORE, calls[..i]);
    ChiefRun(policy, calls[..i]);
    BuiltSize(policy, calls[..i]);
    NextRecorded(policy, st, Apply(policy, st, calls[i]), calls[i], i);
  }

  // ---------------------------------------------------------------------------
  // One slot
  // ---------------------------------------------------------------------------

  /** Calls on other keys leave a slot alone. */
  lemma {:induction false} BuiltApart(policy: Policy, calls: seq<Call>, m: nat, n: nat, key: SlotKey)
    requires m <= n <= |calls| && forall i | m <= i < n :: calls[i].Key() != key
    ensures key in Built(policy, calls[..n]) <==> key in Built(policy, calls[..m])
    ensures key in Built(policy, calls[..m]) ==> Built(policy, calls[..n])[key] == Built(policy, calls[..m])[key]
    decreases n
  {
    if m < n {
      BuiltApart(policy, calls, m, n - 1, key);
      assert calls[..n][..n - 1] == calls[..n - 1];
    }
  }

  /** The only call on its key. */
  lemma {:induction false} BuiltOnce(policy: Policy, calls: seq<Call>, i: nat)
    requires i < |calls| && forall k | 0 <= k < |calls| && k != i :: calls[k].Key() != calls[i].Key()
    ensures
      var c := calls[i];
      c.Key() in Built(policy, calls) && Built(policy, calls)[c.Key()] == WithReading(policy, NewSlot(c.observation.key), c)
  {
    BuiltApart(policy, calls, 0, i, calls[i].Key());
    assert calls[..i + 1][..i] == calls[..i];
    BuiltApart(policy, calls, i + 1, |calls|, calls[i].Key());
    assert calls[..|calls|] == calls;
  }

  /** The only two calls on their key. */
  lemma {:induction false} BuiltTwice(policy: Policy, calls: seq<Call>, i: nat, j: nat)
    requires i < j < |calls| && calls[i].Key() == calls[j].Key()
    requires forall k | 0 <= k < |calls| && k != i && k != j :: calls[k].Key() != calls[i].Key()
    ensures
      var c, d := calls[i], calls[j];
      && d.Key() in Built(policy, calls)
      && Built(policy, calls)[d.Key()] == WithReading(policy, WithReading(policy, NewSlot(c.observation.key), c), d)
  {
    var key := calls[i].Key();
    BuiltApart(policy, calls, 0, i, key);
    assert calls[..i + 1][..i] == calls[..i];
    BuiltApart(policy, calls, i + 1, j, key);
    assert calls[..j + 1][..j] == calls[..j];
    BuiltApart(policy, calls, j + 1, |calls|, key);
    assert calls[..|calls|] == calls;
  }

  /** A slot exists only for a call on its key. */
  lemma {:induction false} BuiltFor(policy: Policy, calls: seq<Call>, key: SlotKey) returns (i: nat)
    requires key in Built(policy, calls)
    ensures i < |calls| && calls[i].Key() == key
  {
    var n := |calls| - 1;
    if calls[n].Key() == key {
      i := n;
    } else {
      i := BuiltFor(policy, calls[..n], key);
    }
  }
}

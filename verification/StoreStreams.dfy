/**
 What runs of calls keep about a source's revision stream: which scopes are retired, that a replay
 is refused, and that equal gap epochs mean no revision is missing.
 */
module StoreStreams {
  import opened Domain
  import opened StoreSpec
  import opened Retirement

  // ---------------------------------------------------------------------------
  // One call, seen from one stream
  // ---------------------------------------------------------------------------

  /** How a call of this source moves the stream's scope, revision and gap count. */
  ghost predicate StreamMoves(was: StreamState, next: StreamState, c: Call, answer: AcceptOutcome) {
    && (answer.scopeChanged ==>
          && (was.hasScope ==> was.scope != c.Scope() && c.Scope() !in was.retiredScopes)
          && next.hasScope && next.scope == c.Scope() && next.scopeChanges == was.scopeChanges + 1
          && next.retiredScopes == (if was.hasScope then KeepLast(was.retiredScopes + [was.scope], MAX_RETIRED_SCOPES)
                                    else was.retiredScopes))
    && (!answer.scopeChanged ==>
          && next.hasScope == was.hasScope && next.scope == was.scope
          && next.scopeChanges == was.scopeChanges && next.retiredScopes == was.retiredScopes
          && (!answer.accepted ==> next.hasSequence == was.hasSequence && next.lastSequence == was.lastSequence))
    && (answer.accepted ==>
          && next.hasScope && next.scope == c.Scope() && next.hasSequence && next.lastSequence == c.Sequence()
          && (was.hasSequence && !answer.scopeChanged ==>
                was.lastSequence < c.Sequence() && (!answer.revisionGap ==> c.Sequence() == was.lastSequence + 1)))
    && next.gapCount == was.gapCount + (if answer.revisionGap then 1 else 0)
  }

  lemma {:induction false} AdmitMoves(was: StreamState, c: Call, answer: AcceptOutcome)
    requires
      var a := Admit(was, c.observation);
      && answer.scopeChanged == a.scopeChanged && answer.revisionGap == a.gap && !answer.accepted
    requires !was.hasScope ==> !was.hasSequence
    ensures StreamMoves(was, Admit(was, c.observation).stream, c, answer)
  {
  }

  lemma {:induction false} AcceptedMoves(was: StreamState, next: StreamState, c: Call, answer: AcceptOutcome)
    requires
      var a := Admit(was, c.observation);
      && answer.scopeChanged == a.scopeChanged && answer.revisionGap == a.gap && answer.accepted
      && a.fence == FenceReason.None
      && next == a.stream.(hasSequence := true, lastSequence := c.Sequence(),
                           lastObservation := c.observation.id, accepted := a.stream.accepted + 1)
    requires !was.hasScope ==> !was.hasSequence
    ensures StreamMoves(was, next, c, answer)
  {
  }

  lemma {:induction false} CallMovesStream(policy: Policy, st: StoreState, c: Call)
    requires var was := StreamOf(st, c.Source()); !was.hasScope ==> !was.hasSequence
    ensures StreamMoves(StreamOf(st, c.Source()), StreamOf(Apply(policy, st, c), c.Source()), c, Answer(policy, st, c))
  {
    var o, was, answer := c.observation, StreamOf(st, c.Source()), Answer(policy, st, c);
    if EntryFence(policy, o, c.context) == FenceReason.None {
      var a := Admit(was, o);
      var next := StreamOf(Apply(policy, st, c), c.Source());
      SettleStream(policy, st, o, c.context.source.value, c.now, a);
      if answer.accepted {
        AcceptedMoves(was, next, c, answer);
      } else {
        AdmitMoves(was, c, answer);
        assert next == a.stream || next == a.stream.(fenced := a.stream.fenced + 1);
      }
    }
  }

  lemma {:induction false} SettleStream(policy: Policy, st: StoreState, o: Observation, source: SourceRecord, now: TimePoint, a: Admission)
    ensures
      var after := Settle(policy, st, o, source, now, a);
      var outcome := SettledOutcome(policy, st, o, source.authority, a);
      var next := StreamOf(after, o.provenance.source);
      && (forall s | s != o.provenance.source :: StreamOf(after, s) == StreamOf(st, s))
      && outcome.scopeChanged == a.scopeChanged && outcome.revisionGap == a.gap
      && (outcome.accepted ==>
            && a.fence == FenceReason.None
            && next == a.stream.(hasSequence := true, lastSequence := o.provenance.sequence,
                                 lastObservation := o.id, accepted := a.stream.accepted + 1))
      && (!outcome.accepted ==> next == a.stream || next == a.stream.(fenced := a.stream.fenced + 1))
  {
  }

  lemma {:induction false} OtherStreamsStay(policy: Policy, st: StoreState, c: Call, source: SourceId)
    requires source != c.Source()
    ensures StreamOf(Apply(policy, st, c), source) == StreamOf(st, source)
  {
    var o := c.observation;
    if EntryFence(policy, o, c.context) == FenceReason.None {
      SettleStream(policy, st, o, c.context.source.value, c.now, Admit(StreamOf(st, c.Source()), o));
    }
  }

  // ---------------------------------------------------------------------------
  // A run, seen from one stream
  // ---------------------------------------------------------------------------

  /** One source's stream before and after every call of a run, with the answers given. */
  datatype Trace = Trace(source: SourceId, calls: seq<Call>, streams: seq<StreamState>, answers: seq<AcceptOutcome>) {
    ghost predicate Valid() {
      && |streams| == |calls| + 1 && |answers| == |calls|
      && streams[0] == NEW_STREAM
      && forall n | 0 <= n < |calls| :: Moves(n)
    }

    ghost predicate Moves(n: nat)
      requires |streams| == |calls| + 1 && |answers| == |calls| && n < |calls|
    {
      if calls[n].Source() == source then StreamMoves(streams[n], streams[n + 1], calls[n], answers[n])
      else streams[n + 1] == streams[n]
    }

    predicate AcceptedAt(i: nat) {
      i < |calls| && i < |answers| && calls[i].Source() == source && answers[i].accepted
    }

    /** The scopes the source adopted in the first n calls, oldest first. */
    function Adopted(n: nat): seq<SequenceScope>
      requires n <= |calls| && |answers| == |calls|
    {
      if n == 0 then []
      else if calls[n - 1].Source() == source && answers[n - 1].scopeChanged then Adopted(n - 1) + [calls[n - 1].Scope()]
      else Adopted(n - 1)
    }
  }

  /** The source's stream before the run and after each call. */
  function StreamsOf(policy: Policy, calls: seq<Call>, source: SourceId, n: nat): (streams: seq<StreamState>)
    requires n <= |calls|
    ensures |streams| == n + 1
    ensures forall m | 0 <= m <= n :: streams[m] == StreamOf(StateAfter(policy, calls, m), source)
  {
    if n == 0 then [StreamOf(StateAfter(policy, calls, 0), source)]
    else StreamsOf(policy, calls, source, n - 1) + [StreamOf(StateAfter(policy, calls, n), source)]
  }

  function AnswersOf(policy: Policy, calls: seq<Call>, n: nat): (answers: seq<AcceptOutcome>)
    requires n <= |calls|
    ensures |answers| == n
    ensures forall i | 0 <= i < n :: answers[i] == AnswerAt(policy, calls, i)
  {
    if n == 0 then [] else AnswersOf(policy, calls, n - 1) + [AnswerAt(policy, calls, n - 1)]
  }

  function TraceOf(policy: Policy, calls: seq<Call>, source: SourceId): Trace {
    Trace(source, calls, StreamsOf(policy, calls, source, |calls|), AnswersOf(policy, calls, |calls|))
  }

  lemma {:induction false} NewStreamHasNoSequence(policy: Policy, calls: seq<Call>, n: nat, source: SourceId)
    requires n <= |calls|
    ensures var s := StreamOf(StateAfter(policy, calls, n), source); !s.hasScope ==> !s.hasSequence
    decreases n
  {
    if n > 0 {
      NewStreamHasNoSequence(policy, calls, n - 1, source);
      RunStep(policy, calls, n - 1);
      var st, c := StateAfter(policy, calls, n - 1), calls[n - 1];
      if c.Source() == source { CallMovesStream(policy, st, c); } else { OtherStreamsStay(policy, st, c, source); }
    }
  }

  /** Every run of the store gives a valid trace for every source, ending in the stored stream. */
  lemma {:induction false} TraceValid(policy: Policy, calls: seq<Call>, source: SourceId)
    ensures TraceOf(policy, calls, source).Valid()
    ensures TraceOf(policy, calls, source).streams[|calls|] == StreamOf(Run(policy, EMPTY_STORE, calls), source)
  {
    var t := TraceOf(policy, calls, source);
    assert calls[..|calls|] == calls;
    forall n | 0 <= n < |calls| ensures t.Moves(n) {
      RunStep(policy, calls, n);
      NewStreamHasNoSequence(policy, calls, n, source);
      if calls[n].Source() == source {
        CallMovesStream(policy, StateAfter(policy, calls, n), calls[n]);
      } else {
        OtherStreamsStay(policy, StateAfter(policy, calls, n), calls[n], source);
      }
    }
  }

  // ---------------------------------------------------------------------------
  // Scopes over a run
  // ---------------------------------------------------------------------------

  /** The stream records exactly the current scope and the last 32 it superseded. */
  ghost predicate ScopesRecorded(stream: StreamState, adopted: seq<SequenceScope>) {
    && Records(stream.hasScope, stream.scope, stream.retiredScopes, adopted, MAX_RETIRED_SCOPES)
    && stream.scopeChanges == |adopted|
  }

  lemma {:induction false} RetireStep(was: StreamState, next: StreamState, adopted: seq<SequenceScope>, c: Call, answer: AcceptOutcome)
    requires ScopesRecorded(was, adopted) && NoEarlyReturn(adopted, MAX_RETIRED_SCOPES)
    requires StreamMoves(was, next, c, answer) && answer.scopeChanged
    ensures ScopesRecorded(next, adopted + [c.Scope()]) && NoEarlyReturn(adopted + [c.Scope()], MAX_RETIRED_SCOPES)
  {
    Adopt(was.hasScope, was.scope, was.retiredScopes, adopted, MAX_RETIRED_SCOPES, c.Scope());
  }

  lemma {:induction false} TraceScopes(t: Trace, n: nat)
    requires t.Valid() && n <= |t.calls|
    ensures ScopesRecorded(t.streams[n], t.Adopted(n)) && NoEarlyReturn(t.Adopted(n), MAX_RETIRED_SCOPES)
  {
    if n > 0 {
      TraceScopes(t, n - 1);
      assert t.Moves(n - 1);
      if t.calls[n - 1].Source() == t.source && t.answers[n - 1].scopeChanged {
        RetireStep(t.streams[n - 1], t.streams[n], t.Adopted(n - 1), t.calls[n - 1], t.answers[n - 1]);
      }
    }
  }

  /** The bounded, duplicate-free list of retired scopes never holds the scope in force. */
  ghost predicate RetiredWellFormed(stream: StreamState) {
    WellFormed(stream.scope, stream.retiredScopes, MAX_RETIRED_SCOPES)
  }

  /**
   Over every run and for every source, the stream holds exactly the last min(32, changes - 1)
   superseded scopes in order, no scope returns while it is retained, and the list is well formed.
   */
  lemma {:induction false} RetiredScopesExact(policy: Policy, calls: seq<Call>, source: SourceId)
    ensures
      var stream := StreamOf(Run(policy, EMPTY_STORE, calls), source);
      var adopted := TraceOf(policy, calls, source).Adopted(|calls|);
      ScopesRecorded(stream, adopted) && NoEarlyReturn(adopted, MAX_RETIRED_SCOPES) && RetiredWellFormed(stream)
  {
    var t := TraceOf(policy, calls, source);
    TraceValid(policy, calls, source);
    TraceScopes(t, |calls|);
    var stream := t.streams[|calls|];
    RecordedIsWellFormed(stream.hasScope, stream.scope, stream.retiredScopes, t.Adopted(|calls|), MAX_RETIRED_SCOPES);
  }
}

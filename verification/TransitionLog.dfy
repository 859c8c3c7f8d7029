/**
 The bounded transition history (src/store/history.cpp:21-71): two rings, one for all links and one
 for each, and the list a snapshot takes of it. The content identity of an event is a parameter.
 */
module TransitionLog {
  import opened Domain
  import opened Retirement
  import opened Sums

  const MAX_TEXT: nat := 64

  datatype Log = Log(global: seq<TransitionEvent>, perLink: map<LinkId, seq<TransitionEvent>>, total: nat, dropped: nat)

  const EMPTY_LOG: Log := Log([], map[], 0, 0)

  type Identify = TransitionEvent -> Hash128

  function Cut(s: string): string { if |s| > MAX_TEXT then s[..MAX_TEXT] else s }

  /** What is kept of an event: its texts cut, its identity computed from the rest. */
  function Stamped(identify: Identify, e: TransitionEvent): TransitionEvent {
    var cut := e.(id := 0, from := Cut(e.from), to' := Cut(e.to'));
    cut.(id := identify(cut))
  }

  function BucketOf(log: Log, link: LinkId): seq<TransitionEvent> { if link in log.perLink then log.perLink[link] else [] }

  function Overflow(n: nat, bound: nat): nat { if n > bound then n - bound else 0 }

  function Recorded(limits: Limits, identify: Identify, log: Log, e: TransitionEvent): Log {
    var bucket, global := BucketOf(log, e.link) + [Stamped(identify, e)], log.global + [Stamped(identify, e)];
    Log(KeepLast(global, limits.maxTotalTransitions),
        log.perLink[e.link := KeepLast(bucket, limits.maxTransitionsPerLink)],
        log.total + 1,
        log.dropped + Overflow(|bucket|, limits.maxTransitionsPerLink) + Overflow(|global|, limits.maxTotalTransitions))
  }

  function RecordAll(limits: Limits, identify: Identify, events: seq<TransitionEvent>): Log {
    if events == [] then EMPTY_LOG
    else Recorded(limits, identify, RecordAll(limits, identify, events[..|events| - 1]), events[|events| - 1])
  }

  /** The newest events, oldest first; every listing is bounded by the result limit as well. */
  function Newest(limits: Limits, events: seq<TransitionEvent>, limit: nat): seq<TransitionEvent> {
    KeepLast(events, if limit < limits.maxResultRows then limit else limits.maxResultRows)
  }

  /** What a snapshot takes. */
  function Saved(limits: Limits, log: Log): seq<TransitionEvent> { Newest(limits, log.global, limits.maxTotalTransitions) }

  class TransitionLog {
    const limits: Limits
    const identify: Identify
    var global: seq<TransitionEvent>
    var perLink: map<LinkId, seq<TransitionEvent>>
    var total: nat
    var dropped: nat

    ghost function State(): Log
      reads this
    {
      Log(global, perLink, total, dropped)
    }

    constructor (limits: Limits, identify: Identify)
      ensures State() == EMPTY_LOG && this.limits == limits && this.identify == identify
    {
      this.limits, this.identify := limits, identify;
      global, perLink, total, dropped := [], map[], 0, 0;
    }

    method Record(event: TransitionEvent)
      modifies this
      ensures State() == Recorded(limits, identify, old(State()), event)
    {
      var e := Stamped(identify, event);
      var bucket, evicted := Evict((if event.link in perLink then perLink[event.link] else []) + [e], limits.maxTransitionsPerLink);
      perLink := perLink[event.link := bucket];
      dropped := dropped + evicted;
      global, evicted := Evict(global + [e], limits.maxTotalTransitions);
      total := total + 1;
      dropped := dropped + evicted;
    }

    /** Drops the oldest until the ring is within its bound. */
    static method Evict(events: seq<TransitionEvent>, bound: nat) returns (ring: seq<TransitionEvent>, evicted: nat)
      ensures ring == KeepLast(events, bound) && evicted == Overflow(|events|, bound)
    {
      ring, evicted := events, 0;
      while |ring| > bound
        invariant evicted <= |events| && ring == events[evicted..]
        invariant evicted == 0 || |ring| >= bound
      {
        assert ring[1..] == events[evicted + 1..];
        ring := ring[1..];
        evicted := evicted + 1;
      }
    }

    /** The newest events of all links. */
    method Recent(limit: nat) returns (out: seq<TransitionEvent>)
      ensures out == Newest(limits, global, limit)
    {
      out := List(global, limit);
    }

    /** The newest events of one link. */
    method ForLink(link: LinkId, limit: nat) returns (out: seq<TransitionEvent>)
      ensures out == Newest(limits, BucketOf(State(), link), limit)
    {
      if link !in perLink {
        return [];
      }
      out := List(perLink[link], limit);
    }

    method List(events: seq<TransitionEvent>, limit: nat) returns (out: seq<TransitionEvent>)
      ensures out == Newest(limits, events, limit)
    {
      var bound := if limit < limits.maxResultRows then limit else limits.maxResultRows;
      var start := if |events| > bound then |events| - bound else 0;
      out := [];
      var index := start;
      while index < |events|
        invariant start <= index <= |events|
        invariant out == events[start..index]
      {
        out := out + [events[index]];
        index := index + 1;
      }
    }
  }

  // ---------------------------------------------------------------------------
  // What the rings hold
  // ---------------------------------------------------------------------------

  function StampAll(identify: Identify, events: seq<TransitionEvent>): (out: seq<TransitionEvent>)
    ensures |out| == |events| && forall i | 0 <= i < |events| :: out[i] == Stamped(identify, events[i])
  {
    if events == [] then [] else StampAll(identify, events[..|events| - 1]) + [Stamped(identify, events[|events| - 1])]
  }

  /** The events of one link, in order. */
  function Of(events: seq<TransitionEvent>, link: LinkId): seq<TransitionEvent> {
    if events == [] then []
    else
      var e := events[|events| - 1];
      Of(events[..|events| - 1], link) + (if e.link == link then [e] else [])
  }

  /** How many events the rings hold. */
  ghost function Held(log: Log): nat { |log.global| + SumOver(log.perLink, Size) }

  function Size(s: seq<TransitionEvent>): nat { |s| }

  lemma {:induction false} RecordedBuckets(limits: Limits, identify: Identify, log: Log, e: TransitionEvent, all: seq<TransitionEvent>, link: LinkId)
    requires BucketOf(log, link) == KeepLast(Of(all, link), limits.maxTransitionsPerLink)
    ensures BucketOf(Recorded(limits, identify, log, e), link) == KeepLast(Of(all + [Stamped(identify, e)], link), limits.maxTransitionsPerLink)
  {
    assert (all + [Stamped(identify, e)])[..|all|] == all;
    if e.link == link {
      KeepLastTwice(Of(all, link), Stamped(identify, e), limits.maxTransitionsPerLink);
    } else {
      assert Of(all, link) + [] == Of(all, link);
    }
  }

  /**
   Over every sequence of recorded events: the global ring holds exactly the newest events of all
   links, each link's ring exactly the newest of its own, in order, and the total counts them all.
   */
  lemma {:induction false} RingsExact(limits: Limits, identify: Identify, events: seq<TransitionEvent>, link: LinkId)
    ensures
      var log, all := RecordAll(limits, identify, events), StampAll(identify, events);
      && log.global == KeepLast(all, limits.maxTotalTransitions)
      && BucketOf(log, link) == KeepLast(Of(all, link), limits.maxTransitionsPerLink)
      && log.total == |events|
  {
    if events != [] {
      var n := |events| - 1;
      RingsExact(limits, identify, events[..n], link);
      KeepLastTwice(StampAll(identify, events[..n]), Stamped(identify, events[n]), limits.maxTotalTransitions);
      RecordedBuckets(limits, identify, RecordAll(limits, identify, events[..n]), events[n], StampAll(identify, events[..n]), link);
    }
  }

  /** Nothing is dropped without being counted, once for each ring: dropped plus held is twice the total. */
  lemma {:induction false} DroppedIsCounted(limits: Limits, identify: Identify, events: seq<TransitionEvent>)
    ensures
      var log := RecordAll(limits, identify, events);
      log.dropped + Held(log) == 2 * log.total
  {
    if events != [] {
      var n := |events| - 1;
      DroppedIsCounted(limits, identify, events[..n]);
      var log, e := RecordAll(limits, identify, events[..n]), events[n];
      SumPut(log.perLink, e.link, RecordAll(limits, identify, events).perLink[e.link], Size);
    }
  }

  // ---------------------------------------------------------------------------
  // What a snapshot takes, and gives back
  // ---------------------------------------------------------------------------

  lemma {:induction false} KeptOfKept<T>(s: seq<T>, m: nat, n: nat)
    ensures KeepLast(KeepLast(s, m), n) == KeepLast(s, if m < n then m else n)
  {
  }

  lemma {:induction false} SavedAre(limits: Limits, identify: Identify, events: seq<TransitionEvent>)
    ensures
      Saved(limits, RecordAll(limits, identify, events))
      == KeepLast(StampAll(identify, events), if limits.maxTotalTransitions < limits.maxResultRows then limits.maxTotalTransitions else limits.maxResultRows)
  {
    RingsExact(limits, identify, events, 0);
    var all, bound := StampAll(identify, events), if limits.maxTotalTransitions < limits.maxResultRows then limits.maxTotalTransitions else limits.maxResultRows;
    KeptOfKept(all, limits.maxTotalTransitions, bound);
  }

  /** What stamping leaves alone. */
  predicate Settled(identify: Identify, e: TransitionEvent) {
    Stamped(identify, e) == e && |e.from| <= MAX_TEXT && |e.to'| <= MAX_TEXT
  }

  lemma {:induction false} StampSettles(identify: Identify, e: TransitionEvent)
    ensures Settled(identify, Stamped(identify, e))
  {
    var s := Stamped(identify, e);
    assert s.(id := 0, from := Cut(s.from), to' := Cut(s.to')) == e.(id := 0, from := Cut(e.from), to' := Cut(e.to'));
  }

  lemma {:induction false} KeptIn<T>(s: seq<T>, n: nat, i: nat)
    requires i < |KeepLast(s, n)|
    ensures KeepLast(s, n)[i] in s
  {
    assert KeepLast(s, n)[i] == s[|s| - |KeepLast(s, n)| + i];
  }

  lemma {:induction false} AllSettled(identify: Identify, events: seq<TransitionEvent>, e: TransitionEvent)
    requires e in StampAll(identify, events)
    ensures Settled(identify, e)
  {
    var i :| 0 <= i < |events| && StampAll(identify, events)[i] == e;
    StampSettles(identify, events[i]);
  }

  /** A saved list is within the total bound and its texts within 64 characters. */
  lemma {:induction false} SavedWithin(limits: Limits, identify: Identify, events: seq<TransitionEvent>)
    ensures
      var saved := Saved(limits, RecordAll(limits, identify, events));
      && |saved| <= limits.maxTotalTransitions
      && forall i | 0 <= i < |saved| :: Settled(identify, saved[i])
  {
    SavedAre(limits, identify, events);
    var saved := Saved(limits, RecordAll(limits, identify, events));
    forall i | 0 <= i < |saved| ensures Settled(identify, saved[i]) {
      KeptIn(StampAll(identify, events), |saved|, i);
      AllSettled(identify, events, saved[i]);
    }
  }

  lemma {:induction false} SavedIsAllIff(limits: Limits, log: Log)
    requires |log.global| <= limits.maxTotalTransitions
    ensures Saved(limits, log) == log.global <==> |log.global| <= limits.maxResultRows
  {
  }

  /**
   A restart that records the saved list again ends with exactly that list, whatever was recorded
   before. It is the whole ring exactly when the ring is within the result limit: otherwise the oldest
   transitions are not in the snapshot.
   */
  lemma {:induction false} RestoredRing(limits: Limits, identify: Identify, events: seq<TransitionEvent>)
    ensures
      var log := RecordAll(limits, identify, events);
      var back := RecordAll(limits, identify, Saved(limits, log));
      && back.global == Saved(limits, log) && back.total == |Saved(limits, log)|
      && (back.global == log.global <==> |log.global| <= limits.maxResultRows)
  {
    var log := RecordAll(limits, identify, events);
    var saved := Saved(limits, log);
    RingsExact(limits, identify, events, 0);
    SavedAre(limits, identify, events);
    SavedStays(limits, identify, events);
    RingsExact(limits, identify, saved, 0);
    SavedIsAllIff(limits, log);
  }

  lemma {:induction false} OfAppend(a: seq<TransitionEvent>, b: seq<TransitionEvent>, link: LinkId)
    ensures Of(a + b, link) == Of(a, link) + Of(b, link)
    decreases |b|
  {
    if b == [] {
      assert a + b == a;
    } else {
      var n := |b| - 1;
      assert (a + b)[..|a + b| - 1] == a + b[..n];
      OfAppend(a, b[..n], link);
    }
  }

  /** A link's events among the newest are the newest of its own. */
  lemma {:induction false} NewestOf(events: seq<TransitionEvent>, n: nat, link: LinkId)
    ensures
      var own := Of(KeepLast(events, n), link);
      |own| <= |Of(events, link)| && own == KeepLast(Of(events, link), |own|)
  {
    var kept := KeepLast(events, n);
    var first := events[..|events| - |kept|];
    assert events == first + kept;
    OfAppend(first, kept, link);
  }

  lemma {:induction false} SavedStays(limits: Limits, identify: Identify, events: seq<TransitionEvent>)
    ensures
      var saved := Saved(limits, RecordAll(limits, identify, events));
      StampAll(identify, saved) == saved
  {
    SavedWithin(limits, identify, events);
  }

  /** A link's ring after a restart holds the newest of those of its events that were saved. */
  lemma {:induction false} RestoredBucket(limits: Limits, identify: Identify, events: seq<TransitionEvent>, link: LinkId)
    ensures
      var saved, own := Saved(limits, RecordAll(limits, identify, events)), Of(StampAll(identify, events), link);
      && |Of(saved, link)| <= |own|
      && BucketOf(RecordAll(limits, identify, saved), link) == KeepLast(KeepLast(own, |Of(saved, link)|), limits.maxTransitionsPerLink)
  {
    var saved := Saved(limits, RecordAll(limits, identify, events));
    SavedAre(limits, identify, events);
    SavedStays(limits, identify, events);
    RingsExact(limits, identify, saved, link);
    NewestOf(StampAll(identify, events), if limits.maxTotalTransitions < limits.maxResultRows then limits.maxTotalTransitions else limits.maxResultRows, link);
  }

  /**
   After a restart a link's listed transitions, which classification reads, are the same as before
   exactly when the saved list holds as many of the link's events as were listed.
   */
  lemma {:induction false} RestoredListing(limits: Limits, identify: Identify, events: seq<TransitionEvent>, link: LinkId, limit: nat)
    ensures
      var log := RecordAll(limits, identify, events);
      var back := RecordAll(limits, identify, Saved(limits, log));
      var before := Newest(limits, BucketOf(log, link), limit);
      Newest(limits, BucketOf(back, link), limit) == before <==> |before| <= |Of(Saved(limits, log), link)|
  {
    RingsExact(limits, identify, events, link);
    RestoredBucket(limits, identify, events, link);
    SameNewest(Of(StampAll(identify, events), link), |Of(Saved(limits, RecordAll(limits, identify, events)), link)|,
               limits.maxTransitionsPerLink, if limit < limits.maxResultRows then limit else limits.maxResultRows);
  }

  lemma {:induction false} SameNewest<T>(own: seq<T>, held: nat, bound: nat, shown: nat)
    requires held <= |own|
    ensures
      var before := KeepLast(KeepLast(own, bound), shown);
      KeepLast(KeepLast(KeepLast(own, held), bound), shown) == before <==> |before| <= held
  {
    var least := if bound < shown then bound else shown;
    KeptOfKept(own, bound, shown);
    KeptOfKept(KeepLast(own, held), bound, shown);
    KeptOfKept(own, held, least);
  }
}

/**
 Per-source order through the worker pool, and why the number of workers does not change the
 evidence (include/linkobs/runtime/worker.hpp:3-6).
 */
module IngestOrder {
  import opened Domain
  import opened StoreSpec
  import opened StoreConfluence
  import opened Ingest

  // ---------------------------------------------------------------------------
  // One source's calls in a list of parts
  // ---------------------------------------------------------------------------

  function OfParts(parts: seq<Part>, s: SourceId): seq<Call> {
    if parts == [] then []
    else OfParts(parts[..|parts| - 1], s) + OfSource(parts[|parts| - 1].calls, s)
  }

  lemma {:induction false} OfPartsAppend(a: seq<Part>, b: seq<Part>, s: SourceId)
    ensures OfParts(a + b, s) == OfParts(a, s) + OfParts(b, s)
    decreases |b|
  {
    if b == [] {
      assert a + b == a;
    } else {
      var n := |b| - 1;
      assert (a + b)[..|a + b| - 1] == a + b[..n];
      OfPartsAppend(a, b[..n], s);
    }
  }

  lemma {:induction false} OfPart(part: Part, s: SourceId)
    ensures OfParts([part], s) == OfSource(part.calls, s)
  {
    assert [part][..0] == [];
  }

  lemma {:induction false} OfPartsHead(parts: seq<Part>, s: SourceId)
    requires parts != []
    ensures OfParts(parts, s) == OfSource(parts[0].calls, s) + OfParts(parts[1..], s)
  {
    assert parts == [parts[0]] + parts[1..];
    OfPartsAppend([parts[0]], parts[1..], s);
    OfPart(parts[0], s);
  }

  // ---------------------------------------------------------------------------
  // Splitting keeps each source's calls together and in order
  // ---------------------------------------------------------------------------

  lemma {:induction false} RoutedKeeps(calls: seq<Call>, route: Router, w: nat, s: SourceId)
    ensures OfSource(RoutedTo(calls, route, w), s) == if route(s) == w then OfSource(calls, s) else []
  {
    if calls != [] {
      var n := |calls| - 1;
      RoutedKeeps(calls[..n], route, w, s);
      if route(calls[n].Source()) == w {
        OfSourceAppend(RoutedTo(calls[..n], route, w), [calls[n]], s);
        assert [calls[n]][..0] == [];
        assert OfSource([calls[n]], s) == if calls[n].Source() == s then [calls[n]] else [];
      }
    }
  }

  lemma {:induction false} OneMorePart(before: seq<Part>, part: Part, s: SourceId)
    ensures OfParts(before + (if part.calls == [] then [] else [part]), s) == OfParts(before, s) + OfSource(part.calls, s)
  {
    if part.calls == [] {
      assert before + [] == before;
      assert OfParts(before, s) + [] == OfParts(before, s);
    } else {
      OfPartsAppend(before, [part], s);
      OfPart(part, s);
    }
  }

  lemma {:induction false} SplitKeeps(batch: nat, calls: seq<Call>, route: Router, n: nat, s: SourceId)
    ensures OfParts(Split(batch, calls, route, n), s) == if route(s) < n then OfSource(calls, s) else []
  {
    if n > 0 {
      var part := Part(batch, Some(n - 1), RoutedTo(calls, route, n - 1));
      SplitKeeps(batch, calls, route, n - 1, s);
      RoutedKeeps(calls, route, n - 1, s);
      OneMorePart(Split(batch, calls, route, n - 1), part, s);
    }
  }

  lemma {:induction false} SplitRoutes(batch: nat, calls: seq<Call>, route: Router, n: nat, s: SourceId)
    ensures WellRouted(Split(batch, calls, route, n), route, s)
  {
    if n > 0 {
      SplitRoutes(batch, calls, route, n - 1, s);
      RoutedKeeps(calls, route, n - 1, s);
    }
  }

  /** Parts bound elsewhere hold nothing of the source. */
  ghost predicate WellRouted(parts: seq<Part>, route: Router, s: SourceId) {
    forall i | 0 <= i < |parts| :: parts[i].route != Some(route(s)) ==> OfSource(parts[i].calls, s) == []
  }

  lemma {:induction false} PartsRouted(batch: nat, declares: bool, calls: seq<Call>, route: Router, workers: nat, s: SourceId)
    ensures WellRouted(PartsOf(batch, declares, calls, route, workers), route, s)
  {
    var split := Split(batch, calls, route, workers);
    SplitRoutes(batch, calls, route, workers, s);
    if !declares {
      assert [] + split == split;
    }
  }

  /** Splitting a batch keeps each source's calls together and in order. */
  lemma {:induction false} PartsKeep(batch: nat, declares: bool, calls: seq<Call>, route: Router, workers: nat, s: SourceId)
    requires route(s) < workers
    ensures OfParts(PartsOf(batch, declares, calls, route, workers), s) == OfSource(calls, s)
  {
    var split := Split(batch, calls, route, workers);
    SplitKeeps(batch, calls, route, workers, s);
    if declares {
      var inline := Part(batch, Option.None, []);
      OfPartsAppend([inline], split, s);
      OfPart(inline, s);
      assert [] + OfParts(split, s) == OfParts(split, s);
    } else {
      assert [] + split == split;
    }
  }

  // ---------------------------------------------------------------------------
  // The invariant for one source
  // ---------------------------------------------------------------------------

  ghost predicate Shaped(p: Pool, route: Router, s: SourceId, u: nat) {
    route(s) < |p.queues| && |p.busy| == |p.queues| && u < |p.submitters|
  }

  /** Nothing of the source is anywhere but with its own submitter, its own queue and its own worker. */
  ghost predicate KeptApart(p: Pool, route: Router, s: SourceId, u: nat)
    requires Shaped(p, route, s, u)
  {
    && (forall v | 0 <= v < |p.submitters| && v != u :: OfParts(p.submitters[v].todo, s) == [])
    && WellRouted(p.submitters[u].todo, route, s)
    && (forall x | 0 <= x < |p.queues| && x != route(s) :: OfParts(p.queues[x].items, s) == [])
    && (forall x | 0 <= x < |p.busy| && x != route(s) :: OfParts(PartIn(p.busy[x]), s) == [])
  }

  ghost predicate Lifecycle(p: Pool, u: nat)
    requires u < |p.submitters|
  {
    && (p.submitters[u].aborted ==> p.stopping && !p.submitters[u].cleared)
    && (forall x | 0 <= x < |p.queues| && p.queues[x].closed :: p.stopping)
  }

  /** Applied, in hand and queued are a prefix of what was begun; with the way open, the rest is still to push. */
  ghost predicate Pipeline(applied: seq<Call>, hand: seq<Call>, queued: seq<Call>, todo: seq<Call>, begun: seq<Call>, open: bool) {
    && applied + hand + queued <= begun
    && (open ==> begun == applied + hand + queued + todo)
  }

  lemma BeginPipe(a: seq<Call>, h: seq<Call>, q: seq<Call>, b: seq<Call>, open: bool, x: seq<Call>)
    requires Pipeline(a, h, q, [], b, open)
    ensures Pipeline(a, h, q, x, b + x, open)
  {
  }

  lemma PushPipe(a: seq<Call>, h: seq<Call>, q: seq<Call>, t: seq<Call>, b: seq<Call>, x: seq<Call>)
    requires Pipeline(a, h, q, x + t, b, true)
    ensures Pipeline(a, h, q + x, t, b, true)
  {
    assert a + h + q + (x + t) == a + h + (q + x) + t;
  }

  lemma PopPipe(a: seq<Call>, q: seq<Call>, t: seq<Call>, b: seq<Call>, open: bool, x: seq<Call>)
    requires Pipeline(a, [], x + q, t, b, open)
    ensures Pipeline(a, x, q, t, b, open)
  {
    assert a + [] + (x + q) == a + x + q;
  }

  lemma ApplyPipe(a: seq<Call>, q: seq<Call>, t: seq<Call>, b: seq<Call>, open: bool, x: seq<Call>)
    requires Pipeline(a, x, q, t, b, open)
    ensures Pipeline(a + x, [], q, t, b, open)
  {
    assert (a + x) + [] + q == a + x + q;
  }

  lemma ShutPipe(a: seq<Call>, h: seq<Call>, q: seq<Call>, t: seq<Call>, b: seq<Call>, open: bool, t': seq<Call>)
    requires Pipeline(a, h, q, t, b, open)
    ensures Pipeline(a, h, q, t', b, false) && Pipeline(a, h, [], t', b, false)
  {
  }

  ghost predicate InOrder(p: Pool, route: Router, s: SourceId, u: nat)
    requires Shaped(p, route, s, u)
  {
    Pipeline(OfParts(p.applied, s), OfParts(PartIn(p.busy[route(s)]), s), OfParts(p.queues[route(s)].items, s),
             OfParts(p.submitters[u].todo, s), OfSource(p.submitters[u].begun, s),
             !p.queues[route(s)].closed && !p.submitters[u].aborted)
  }

  ghost predicate OrderInv(p: Pool, route: Router, s: SourceId, u: nat) {
    Shaped(p, route, s, u) && KeptApart(p, route, s, u) && Lifecycle(p, u) && InOrder(p, route, s, u)
  }

  /** Only submitter u submits observations of source s. */
  predicate Owned(step: Step, s: SourceId, u: nat) {
    step.Begin? && step.u != u ==> OfSource(step.calls, s) == []
  }

  lemma {:induction false} BeginOrdered(p: Pool, step: Step, route: Router, s: SourceId, u: nat)
    requires CanStep(p, step) && step.Begin? && Owned(step, s, u) && OrderInv(p, route, s, u)
    ensures OrderInv(Next(p, step, route), route, s, u)
  {
    PartsKeep(step.batch, step.declares, step.calls, route, |p.queues|, s);
    PartsRouted(step.batch, step.declares, step.calls, route, |p.queues|, s);
    if step.u == u {
      var sub, w := p.submitters[u], route(s);
      OfSourceAppend(sub.begun, step.calls, s);
      assert OfParts(sub.todo, s) == [];
      BeginPipe(OfParts(p.applied, s), OfParts(PartIn(p.busy[w]), s), OfParts(p.queues[w].items, s), OfSource(sub.begun, s),
                !p.queues[w].closed && !sub.aborted, OfSource(step.calls, s));
    }
  }

  /** The inline part holds no observations, so it moves nothing of the source. */
  lemma {:induction false} InlineApart(p: Pool, step: Step, route: Router, s: SourceId, u: nat)
    requires CanStep(p, step) && step.Inline? && Shaped(p, route, s, u) && KeptApart(p, route, s, u)
    ensures KeptApart(Next(p, step, route), route, s, u)
    ensures OfParts(Next(p, step, route).applied, s) == OfParts(p.applied, s)
    ensures OfParts(Next(p, step, route).submitters[u].todo, s) == OfParts(p.submitters[u].todo, s)
  {
    var todo := p.submitters[step.u].todo;
    HeadElsewhere(p, step.u, route, s, u);
    OfPart(todo[0], s);
    OfPartsAppend(p.applied, [todo[0]], s);
    assert OfParts(p.applied, s) + [] == OfParts(p.applied, s);
  }

  lemma {:induction false} InlineOrdered(p: Pool, step: Step, route: Router, s: SourceId, u: nat)
    requires CanStep(p, step) && step.Inline? && OrderInv(p, route, s, u)
    ensures OrderInv(Next(p, step, route), route, s, u)
  {
    InlineApart(p, step, route, s, u);
  }

  /** A head bound elsewhere, or of another submitter, holds nothing of the source. */
  lemma {:induction false} HeadElsewhere(p: Pool, v: nat, route: Router, s: SourceId, u: nat)
    requires Shaped(p, route, s, u) && KeptApart(p, route, s, u) && v < |p.submitters| && p.submitters[v].todo != []
    ensures v != u || p.submitters[v].todo[0].route != Some(route(s)) ==>
              OfSource(p.submitters[v].todo[0].calls, s) == [] && OfParts(p.submitters[v].todo[1..], s) == OfParts(p.submitters[v].todo, s)
    ensures v == u ==> WellRouted(p.submitters[v].todo[1..], route, s)
  {
    OfPartsHead(p.submitters[v].todo, s);
  }

  lemma {:induction false} PushApart(p: Pool, step: Step, route: Router, s: SourceId, u: nat)
    requires CanStep(p, step) && step.Push? && Shaped(p, route, s, u) && KeptApart(p, route, s, u)
    ensures KeptApart(Next(p, step, route), route, s, u)
  {
    var todo := p.submitters[step.u].todo;
    HeadElsewhere(p, step.u, route, s, u);
    OfPart(todo[0], s);
    OfPartsAppend(p.queues[todo[0].route.value].items, [todo[0]], s);
  }

  /** A push moves the source's calls from its submitter to its queue, or touches neither. */
  lemma {:induction false} PushMoves(p: Pool, step: Step, route: Router, s: SourceId, u: nat)
    requires CanStep(p, step) && step.Push? && Shaped(p, route, s, u) && KeptApart(p, route, s, u)
    ensures
      var next, w, head := Next(p, step, route), route(s), p.submitters[step.u].todo[0];
      var queued, todo := OfParts(p.queues[w].items, s), OfParts(p.submitters[u].todo, s);
      var queued', todo' := OfParts(next.queues[w].items, s), OfParts(next.submitters[u].todo, s);
      if step.u == u && head.route == Some(w) then queued' == queued + OfSource(head.calls, s) && todo == OfSource(head.calls, s) + todo'
      else queued' == queued && todo' == todo
  {
    var w, todo := route(s), p.submitters[step.u].todo;
    var queued := OfParts(p.queues[w].items, s);
    HeadElsewhere(p, step.u, route, s, u);
    OfPartsHead(todo, s);
    OfPart(todo[0], s);
    OfPartsAppend(p.queues[w].items, [todo[0]], s);
    assert queued + [] == queued;
  }

  lemma {:induction false} PushOrdered(p: Pool, step: Step, route: Router, s: SourceId, u: nat)
    requires CanStep(p, step) && step.Push? && OrderInv(p, route, s, u)
    ensures OrderInv(Next(p, step, route), route, s, u)
  {
    var w, head := route(s), p.submitters[step.u].todo[0];
    PushApart(p, step, route, s, u);
    PushMoves(p, step, route, s, u);
    if step.u == u && head.route == Some(w) {
      PushPipe(OfParts(p.applied, s), OfParts(PartIn(p.busy[w]), s), OfParts(p.queues[w].items, s),
               OfParts(Next(p, step, route).submitters[u].todo, s), OfSource(p.submitters[u].begun, s), OfSource(head.calls, s));
    }
  }

  lemma {:induction false} DropApart(p: Pool, step: Step, route: Router, s: SourceId, u: nat)
    requires CanStep(p, step) && (step.Reject? || step.Refuse?) && Shaped(p, route, s, u) && KeptApart(p, route, s, u)
    ensures KeptApart(Next(p, step, route), route, s, u)
    ensures forall x | 0 <= x < |p.queues| :: Next(p, step, route).queues[x].items == p.queues[x].items
                                               && Next(p, step, route).queues[x].closed == p.queues[x].closed
  {
  }

  lemma {:induction false} DropOrdered(p: Pool, step: Step, route: Router, s: SourceId, u: nat)
    requires CanStep(p, step) && (step.Reject? || step.Refuse?) && OrderInv(p, route, s, u)
    ensures OrderInv(Next(p, step, route), route, s, u)
  {
    DropApart(p, step, route, s, u);
    if step.u == u {
      var sub, w := p.submitters[u], route(s);
      ShutPipe(OfParts(p.applied, s), OfParts(PartIn(p.busy[w]), s), OfParts(p.queues[w].items, s), OfParts(sub.todo, s),
               OfSource(sub.begun, s), !p.queues[w].closed && !sub.aborted, []);
      assert OfParts(Next(p, step, route).submitters[u].todo, s) == [];
    }
  }

  lemma {:induction false} PopApart(p: Pool, step: Step, route: Router, s: SourceId, u: nat)
    requires CanStep(p, step) && step.Pop? && Shaped(p, route, s, u) && KeptApart(p, route, s, u)
    ensures KeptApart(Next(p, step, route), route, s, u)
  {
    var items := p.queues[step.w].items;
    OfPartsHead(items, s);
    OfPart(items[0], s);
  }

  lemma {:induction false} PopOrdered(p: Pool, step: Step, route: Router, s: SourceId, u: nat)
    requires CanStep(p, step) && step.Pop? && OrderInv(p, route, s, u)
    ensures OrderInv(Next(p, step, route), route, s, u)
  {
    var items := p.queues[step.w].items;
    PopApart(p, step, route, s, u);
    if step.w == route(s) {
      var sub := p.submitters[u];
      OfPartsHead(items, s);
      OfPart(items[0], s);
      assert OfParts(PartIn(p.busy[step.w]), s) == [];
      PopPipe(OfParts(p.applied, s), OfParts(items[1..], s), OfParts(sub.todo, s), OfSource(sub.begun, s),
              !p.queues[step.w].closed && !sub.aborted, OfSource(items[0].calls, s));
    }
  }

  lemma {:induction false} ApplyApart(p: Pool, step: Step, route: Router, s: SourceId, u: nat)
    requires CanStep(p, step) && step.Apply? && Shaped(p, route, s, u) && KeptApart(p, route, s, u)
    ensures KeptApart(Next(p, step, route), route, s, u)
    ensures OfParts(Next(p, step, route).applied, s) == OfParts(p.applied, s) + OfParts(PartIn(p.busy[step.w]), s)
    ensures OfParts(PartIn(Next(p, step, route).busy[step.w]), s) == []
  {
    OfPartsAppend(p.applied, PartIn(p.busy[step.w]), s);
  }

  lemma {:induction false} ApplyOrdered(p: Pool, step: Step, route: Router, s: SourceId, u: nat)
    requires CanStep(p, step) && step.Apply? && OrderInv(p, route, s, u)
    ensures OrderInv(Next(p, step, route), route, s, u)
  {
    ApplyApart(p, step, route, s, u);
    var sub, x := p.submitters[u], OfParts(PartIn(p.busy[step.w]), s);
    if step.w == route(s) {
      ApplyPipe(OfParts(p.applied, s), OfParts(p.queues[step.w].items, s), OfParts(sub.todo, s), OfSource(sub.begun, s),
                !p.queues[step.w].closed && !sub.aborted, x);
    } else {
      assert OfParts(p.applied, s) + [] == OfParts(p.applied, s);
    }
  }

  lemma {:induction false} DiscardOrdered(p: Pool, step: Step, route: Router, s: SourceId, u: nat)
    requires CanStep(p, step) && step.DiscardOne? && OrderInv(p, route, s, u)
    ensures OrderInv(Next(p, step, route), route, s, u)
  {
    if step.w == route(s) {
      var sub := p.submitters[u];
      ShutPipe(OfParts(p.applied, s), OfParts(PartIn(p.busy[step.w]), s), OfParts(p.queues[step.w].items, s),
               OfParts(sub.todo, s), OfSource(sub.begun, s), false, OfParts(sub.todo, s));
    }
  }

  lemma {:induction false} StepOrdered(p: Pool, step: Step, route: Router, s: SourceId, u: nat)
    requires CanStep(p, step) && Owned(step, s, u) && OrderInv(p, route, s, u)
    ensures OrderInv(Next(p, step, route), route, s, u)
  {
    match step {
      case Begin(_, _, _, _) => BeginOrdered(p, step, route, s, u);
      case Inline(_) => InlineOrdered(p, step, route, s, u);
      case Push(_) => PushOrdered(p, step, route, s, u);
      case Reject(_) => DropOrdered(p, step, route, s, u);
      case Refuse(_) => DropOrdered(p, step, route, s, u);
      case Pop(_) => PopOrdered(p, step, route, s, u);
      case Apply(_) => ApplyOrdered(p, step, route, s, u);
      case DiscardOne(_) => DiscardOrdered(p, step, route, s, u);
      case Clear(_) =>
      case Arrive(_) =>
      case Stop =>
      case CloseOne(_) =>
    }
  }

  predicate AllOwned(ss: seq<Step>, s: SourceId, u: nat) { forall i | 0 <= i < |ss| :: Owned(ss[i], s, u) }

  lemma {:induction false} RunOrdered(start: Pool, ss: seq<Step>, route: Router, s: SourceId, u: nat)
    requires Reach(start, ss, route).Some? && AllOwned(ss, s, u) && OrderInv(start, route, s, u)
    ensures OrderInv(Reach(start, ss, route).value, route, s, u)
  {
    if ss != [] {
      var n := |ss| - 1;
      RunOrdered(start, ss[..n], route, s, u);
      StepOrdered(Reach(start, ss[..n], route).value, ss[n], route, s, u);
    }
  }

  function WorkerCount(workers: nat): nat { if workers == 0 then 1 else workers }

  lemma {:induction false} NewOrdered(workers: nat, capacity: nat, submitters: nat, route: Router, s: SourceId, u: nat)
    requires route(s) < WorkerCount(workers) && u < submitters
    ensures OrderInv(NewPool(workers, capacity, submitters), route, s, u)
  {
  }

  /**
   Over every interleaving, cancellation included, a source whose observations one submitter sends
   has them applied in the order that submitter began them, none skipped: what is applied is a
   prefix of what was begun.
   */
  lemma {:induction false} SourceOrderKept(workers: nat, capacity: nat, submitters: nat, ss: seq<Step>, route: Router, s: SourceId, u: nat)
    requires route(s) < WorkerCount(workers) && u < submitters
    requires Reach(NewPool(workers, capacity, submitters), ss, route).Some? && AllOwned(ss, s, u)
    ensures
      var p := Reach(NewPool(workers, capacity, submitters), ss, route).value;
      u < |p.submitters| && OfParts(p.applied, s) <= OfSource(p.submitters[u].begun, s)
  {
    NewOrdered(workers, capacity, submitters, route, s, u);
    RunOrdered(NewPool(workers, capacity, submitters), ss, route, s, u);
    var p := Reach(NewPool(workers, capacity, submitters), ss, route).value;
    var w := route(s);
    PrefixOfSum(OfParts(p.applied, s), OfParts(PartIn(p.busy[w]), s), OfParts(p.queues[w].items, s), OfSource(p.submitters[u].begun, s));
  }

  lemma PrefixOfSum<T>(a: seq<T>, b: seq<T>, c: seq<T>, whole: seq<T>)
    requires a + b + c <= whole
    ensures a <= whole
  {
    assert a <= a + b + c;
  }

  // ---------------------------------------------------------------------------
  // Worker count
  // ---------------------------------------------------------------------------

  function CallsIn(parts: seq<Part>): seq<Call> {
    if parts == [] then [] else CallsIn(parts[..|parts| - 1]) + parts[|parts| - 1].calls
  }

  lemma {:induction false} OfCallsIn(parts: seq<Part>, s: SourceId)
    ensures OfSource(CallsIn(parts), s) == OfParts(parts, s)
  {
    if parts != [] {
      var n := |parts| - 1;
      OfCallsIn(parts[..n], s);
      OfSourceAppend(CallsIn(parts[..n]), parts[n].calls, s);
    }
  }

  /** Everything begun has been applied: no submitter, queue or worker holds a part. */
  ghost predicate Quiet(p: Pool) {
    && !p.stopping
    && (forall u | 0 <= u < |p.submitters| :: p.submitters[u].todo == [])
    && (forall w | 0 <= w < |p.queues| :: p.queues[w].items == [])
    && (forall w | 0 <= w < |p.busy| :: p.busy[w].None?)
  }

  lemma {:induction false} QuietIsComplete(p: Pool, route: Router, s: SourceId, u: nat)
    requires OrderInv(p, route, s, u) && Quiet(p)
    ensures OfParts(p.applied, s) == OfSource(p.submitters[u].begun, s)
  {
    assert PartIn(p.busy[route(s)]) == [];
    assert OfParts(p.applied, s) + [] + [] + [] == OfParts(p.applied, s);
  }

  /** One complete run of the pool. */
  datatype Session = Session(workers: nat, capacity: nat, steps: seq<Step>, route: Router) {
    ghost function End(submitters: nat): Option<Pool> { Reach(NewPool(workers, capacity, submitters), steps, route) }

    ghost predicate Complete(submitters: nat, owner: SourceId -> nat) {
      && End(submitters).Some? && Quiet(End(submitters).value)
      && (forall s: SourceId :: route(s) < WorkerCount(workers) && owner(s) < submitters && AllOwned(steps, s, owner(s)))
    }
  }

  lemma {:induction false} CompleteApplies(a: Session, submitters: nat, owner: SourceId -> nat, s: SourceId)
    requires a.Complete(submitters, owner)
    ensures
      var p := a.End(submitters).value;
      owner(s) < |p.submitters| && OfSource(CallsIn(p.applied), s) == OfSource(p.submitters[owner(s)].begun, s)
  {
    var p := a.End(submitters).value;
    assert AllOwned(a.steps, s, owner(s));
    NewOrdered(a.workers, a.capacity, submitters, a.route, s, owner(s));
    RunOrdered(NewPool(a.workers, a.capacity, submitters), a.steps, a.route, s, owner(s));
    QuietIsComplete(p, a.route, s, owner(s));
    OfCallsIn(p.applied, s);
  }

  /** Both sessions were given the same observations by each submitter, in the same order. */
  ghost predicate SameInput(a: Session, b: Session, submitters: nat, owner: SourceId -> nat)
    requires a.Complete(submitters, owner) && b.Complete(submitters, owner)
  {
    forall s: SourceId ::
      var p, q := a.End(submitters).value, b.End(submitters).value;
      owner(s) < |p.submitters| && owner(s) < |q.submitters| ==>
        OfSource(p.submitters[owner(s)].begun, s) == OfSource(q.submitters[owner(s)].begun, s)
  }

  /**
   Two complete sessions with the same input end with the same store, whatever the number of
   workers, the routing, the queue capacity and the interleaving of each: when sources write
   disjoint slots and the slot bound has room.
   */
  lemma {:induction false} WorkerCountDoesNotMatter(policy: Policy, st: StoreState, a: Session, b: Session, submitters: nat, owner: SourceId -> nat)
    requires a.Complete(submitters, owner) && b.Complete(submitters, owner) && SameInput(a, b, submitters, owner)
    requires DisjointWriters(CallsIn(a.End(submitters).value.applied))
    requires |st.slots.Keys + KeysOf(CallsIn(a.End(submitters).value.applied))| <= MaxSlots(policy)
    ensures Run(policy, st, CallsIn(a.End(submitters).value.applied)) == Run(policy, st, CallsIn(b.End(submitters).value.applied))
  {
    var xs, ys := CallsIn(a.End(submitters).value.applied), CallsIn(b.End(submitters).value.applied);
    forall s: SourceId ensures OfSource(xs, s) == OfSource(ys, s) {
      CompleteApplies(a, submitters, owner, s);
      CompleteApplies(b, submitters, owner, s);
    }
    Confluent(policy, st, xs, ys);
  }
}

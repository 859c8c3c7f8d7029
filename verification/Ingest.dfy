/**
 Ingest as a state machine: submitters split batches by source, push the parts to per-worker queues,
 workers apply parts and count them down (src/runtime/observatory.cpp:187-246,
 src/runtime/worker.cpp:36-64 and 75-150). A run is any interleaving of the steps below.
 */
module Ingest {
  import opened Domain
  import opened StoreSpec
  import opened Queue

  /** The observations of a batch bound for one worker; None is the inline part with declarations. */
  datatype Part = Part(batch: nat, route: Option<nat>, calls: seq<Call>)

  /** One submitting thread. `begun` and `aborted` record history; they steer nothing. */
  datatype Submitter = Submitter(todo: seq<Part>, cleared: bool, aborted: bool, begun: seq<Call>)

  datatype Pool = Pool(
    queues: seq<QueueState<Part>>, busy: seq<Option<Part>>, submitters: seq<Submitter>, stopping: bool,
    applied: seq<Part>, finishing: seq<Part>, arrived: seq<Part>, lost: seq<Part>, started: seq<Part>,
    remaining: map<nat, int>, fired: seq<nat>)

  const IDLE: Submitter := Submitter([], false, false, [])

  function NewPool(workers: nat, capacity: nat, submitters: nat): Pool {
    var count := if workers == 0 then 1 else workers;
    Pool(seq(count, _ => NewQueue(capacity)), seq(count, _ => Option.None), seq(submitters, _ => IDLE), false,
         [], [], [], [], [], map[], [])
  }

  // ---------------------------------------------------------------------------
  // Splitting a batch
  // ---------------------------------------------------------------------------

  type Router = SourceId -> nat

  /** The calls routed to one worker, in order. */
  function RoutedTo(calls: seq<Call>, route: Router, w: nat): seq<Call> {
    if calls == [] then []
    else
      var n := |calls| - 1;
      if route(calls[n].Source()) == w then RoutedTo(calls[..n], route, w) + [calls[n]] else RoutedTo(calls[..n], route, w)
  }

  /** The routing loop of `submit_batch`: each call is appended to its worker's list. */
  method RouteCalls(calls: seq<Call>, route: Router) returns (routed: map<nat, seq<Call>>)
    ensures forall w :: w in routed <==> RoutedTo(calls, route, w) != []
    ensures forall w | w in routed :: routed[w] == RoutedTo(calls, route, w)
  {
    routed := map[];
    var i := 0;
    while i < |calls|
      invariant 0 <= i <= |calls|
      invariant forall w :: w in routed <==> RoutedTo(calls[..i], route, w) != []
      invariant forall w | w in routed :: routed[w] == RoutedTo(calls[..i], route, w)
    {
      var w := route(calls[i].Source());
      assert calls[..i + 1][..i] == calls[..i];
      routed := routed[w := (if w in routed then routed[w] else []) + [calls[i]]];
      i := i + 1;
    }
    assert calls[..i] == calls;
  }

  /** One part for each of the first n workers that gets any call, in worker order. */
  function Split(batch: nat, calls: seq<Call>, route: Router, n: nat): seq<Part> {
    if n == 0 then []
    else
      var mine := RoutedTo(calls, route, n - 1);
      Split(batch, calls, route, n - 1) + (if mine == [] then [] else [Part(batch, Some(n - 1), mine)])
  }

  /** Declarations first and inline, then the routed parts. */
  function PartsOf(batch: nat, declares: bool, calls: seq<Call>, route: Router, workers: nat): seq<Part> {
    (if declares then [Part(batch, Option.None, [])] else []) + Split(batch, calls, route, workers)
  }

  // ---------------------------------------------------------------------------
  // Steps
  // ---------------------------------------------------------------------------

  datatype Step =
    | Begin(u: nat, batch: nat, declares: bool, calls: seq<Call>) // submit_batch splits and sets the countdown
    | Inline(u: nat)      // the declaration part is applied by the submitter itself
    | Clear(u: nat)       // submit finds the pool running
    | Push(u: nat)        // the part enters its queue
    | Reject(u: nat)      // the queue was closed first
    | Refuse(u: nat)      // submit finds the pool not running
    | Pop(w: nat)         // a worker takes the oldest part
    | Apply(w: nat)       // the handler applies it under the state lock
    | Arrive(i: nat)      // the part's completion callback counts down
    | Stop                // stop or cancel takes the lifecycle lock
    | CloseOne(w: nat)
    | DiscardOne(w: nat)  // cancel only

  predicate Has(p: Pool, u: nat) { u < |p.submitters| && p.submitters[u].todo != [] }

  predicate Routed(p: Pool, part: Part) { part.route.Some? && part.route.value < |p.queues| }

  predicate CanStep(p: Pool, s: Step) {
    match s
    case Begin(u, batch, _, _) => u < |p.submitters| && p.submitters[u].todo == [] && batch !in p.remaining
    case Inline(u) => Has(p, u) && p.submitters[u].todo[0].route.None?
    case Clear(u) => Has(p, u) && Routed(p, p.submitters[u].todo[0]) && !p.stopping
    case Push(u) =>
      && Has(p, u) && p.submitters[u].cleared && Routed(p, p.submitters[u].todo[0])
      && var q := p.queues[p.submitters[u].todo[0].route.value]; !q.closed && Room(q)
    case Reject(u) =>
      && Has(p, u) && p.submitters[u].cleared && Routed(p, p.submitters[u].todo[0])
      && p.queues[p.submitters[u].todo[0].route.value].closed
    case Refuse(u) => Has(p, u) && p.stopping && !p.submitters[u].cleared && p.submitters[u].todo[0].route.Some?
    case Pop(w) => w < |p.queues| && w < |p.busy| && p.busy[w].None? && p.queues[w].items != []
    case Apply(w) => w < |p.busy| && p.busy[w].Some?
    case Arrive(i) => i < |p.finishing| && p.finishing[i].batch in p.remaining
    case Stop => !p.stopping
    case CloseOne(w) => p.stopping && w < |p.queues|
    case DiscardOne(w) => p.stopping && w < |p.queues| && p.queues[w].closed
  }

  function Dropped(p: Pool, u: nat): Pool
    requires u < |p.submitters|
  {
    var sub := p.submitters[u];
    p.(submitters := p.submitters[u := sub.(todo := [], cleared := false, aborted := true)], lost := p.lost + sub.todo)
  }

  function Next(p: Pool, s: Step, route: Router): Pool
    requires CanStep(p, s)
  {
    match s
    case Begin(u, batch, declares, calls) =>
      var parts := PartsOf(batch, declares, calls, route, |p.queues|);
      p.(submitters := p.submitters[u := p.submitters[u].(todo := parts, begun := p.submitters[u].begun + calls)],
         started := p.started + parts, remaining := p.remaining[batch := |parts|],
         fired := if parts == [] then p.fired + [batch] else p.fired)
    case Inline(u) =>
      var sub := p.submitters[u];
      p.(submitters := p.submitters[u := sub.(todo := sub.todo[1..])],
         applied := p.applied + [sub.todo[0]], finishing := p.finishing + [sub.todo[0]])
    case Clear(u) => p.(submitters := p.submitters[u := p.submitters[u].(cleared := true)])
    case Push(u) =>
      var sub := p.submitters[u];
      var w := sub.todo[0].route.value;
      p.(submitters := p.submitters[u := sub.(todo := sub.todo[1..], cleared := false)],
         queues := p.queues[w := Pushed(p.queues[w], sub.todo[0])])
    case Reject(u) =>
      var w := p.submitters[u].todo[0].route.value;
      Dropped(p, u).(queues := p.queues[w := Pushed(p.queues[w], p.submitters[u].todo[0])])
    case Refuse(u) => Dropped(p, u)
    case Pop(w) =>
      p.(busy := p.busy[w := Some(p.queues[w].items[0])], queues := p.queues[w := Popped(p.queues[w])])
    case Apply(w) =>
      var part := p.busy[w].value;
      p.(busy := p.busy[w := Option.None], applied := p.applied + [part], finishing := p.finishing + [part])
    case Arrive(i) =>
      var part := p.finishing[i];
      p.(finishing := p.finishing[..i] + p.finishing[i + 1..], arrived := p.arrived + [part],
         remaining := p.remaining[part.batch := p.remaining[part.batch] - 1],
         fired := if p.remaining[part.batch] == 1 then p.fired + [part.batch] else p.fired)
    case Stop => p.(stopping := true)
    case CloseOne(w) => p.(queues := p.queues[w := Closed(p.queues[w])])
    case DiscardOne(w) => p.(queues := p.queues[w := Discarded(p.queues[w])], lost := p.lost + p.queues[w].items)
  }

  /** The pool after these steps, if each was enabled when it was taken. */
  function Reach(p: Pool, ss: seq<Step>, route: Router): Option<Pool>
    decreases |ss|
  {
    if ss == [] then Some(p)
    else
      match Reach(p, ss[..|ss| - 1], route)
      case None => Option.None
      case Some(q) => if CanStep(q, ss[|ss| - 1]) then Some(Next(q, ss[|ss| - 1], route)) else Option.None
  }

  // ---------------------------------------------------------------------------
  // Where parts are
  // ---------------------------------------------------------------------------

  /** How many of the parts satisfy f. */
  ghost function Tally(parts: seq<Part>, f: Part -> bool): nat {
    if parts == [] then 0 else Tally(parts[..|parts| - 1], f) + (if f(parts[|parts| - 1]) then 1 else 0)
  }

  lemma {:induction false} TallyAppend(a: seq<Part>, b: seq<Part>, f: Part -> bool)
    ensures Tally(a + b, f) == Tally(a, f) + Tally(b, f)
    decreases |b|
  {
    if b == [] {
      assert a + b == a;
    } else {
      assert (a + b)[..|a + b| - 1] == a + b[..|b| - 1];
      TallyAppend(a, b[..|b| - 1], f);
    }
  }

  lemma {:induction false} TallyOne(part: Part, f: Part -> bool)
    ensures Tally([part], f) == if f(part) then 1 else 0
  {
    assert [part][..0] == [];
  }

  lemma {:induction false} TallyHead(parts: seq<Part>, f: Part -> bool)
    requires parts != []
    ensures Tally(parts, f) == (if f(parts[0]) then 1 else 0) + Tally(parts[1..], f)
  {
    assert parts == [parts[0]] + parts[1..];
    TallyAppend([parts[0]], parts[1..], f);
    TallyOne(parts[0], f);
  }

  lemma {:induction false} TallyRemove(parts: seq<Part>, i: nat, f: Part -> bool)
    requires i < |parts|
    ensures Tally(parts, f) == Tally(parts[..i] + parts[i + 1..], f) + (if f(parts[i]) then 1 else 0)
  {
    assert parts == parts[..i] + ([parts[i]] + parts[i + 1..]);
    TallyAppend(parts[..i], [parts[i]] + parts[i + 1..], f);
    TallyAppend([parts[i]], parts[i + 1..], f);
    TallyAppend(parts[..i], parts[i + 1..], f);
    TallyOne(parts[i], f);
  }

  ghost function InQueues(queues: seq<QueueState<Part>>, f: Part -> bool): nat {
    if queues == [] then 0 else InQueues(queues[..|queues| - 1], f) + Tally(queues[|queues| - 1].items, f)
  }

  lemma {:induction false} QueuePut(queues: seq<QueueState<Part>>, w: nat, q: QueueState<Part>, f: Part -> bool)
    requires w < |queues|
    ensures InQueues(queues[w := q], f) + Tally(queues[w].items, f) == InQueues(queues, f) + Tally(q.items, f)
  {
    var n := |queues| - 1;
    if w < n {
      assert queues[w := q][..n] == queues[..n][w := q];
      QueuePut(queues[..n], w, q, f);
    } else {
      assert queues[w := q][..n] == queues[..n];
    }
  }

  function PartIn(b: Option<Part>): seq<Part> { if b.Some? then [b.value] else [] }

  ghost function InHands(busy: seq<Option<Part>>, f: Part -> bool): nat {
    if busy == [] then 0 else InHands(busy[..|busy| - 1], f) + Tally(PartIn(busy[|busy| - 1]), f)
  }

  lemma {:induction false} HandPut(busy: seq<Option<Part>>, w: nat, b: Option<Part>, f: Part -> bool)
    requires w < |busy|
    ensures InHands(busy[w := b], f) + Tally(PartIn(busy[w]), f) == InHands(busy, f) + Tally(PartIn(b), f)
  {
    var n := |busy| - 1;
    if w < n {
      assert busy[w := b][..n] == busy[..n][w := b];
      HandPut(busy[..n], w, b, f);
    } else {
      assert busy[w := b][..n] == busy[..n];
    }
  }

  ghost function InTodo(submitters: seq<Submitter>, f: Part -> bool): nat {
    if submitters == [] then 0 else InTodo(submitters[..|submitters| - 1], f) + Tally(submitters[|submitters| - 1].todo, f)
  }

  lemma {:induction false} TodoPut(submitters: seq<Submitter>, u: nat, sub: Submitter, f: Part -> bool)
    requires u < |submitters|
    ensures InTodo(submitters[u := sub], f) + Tally(submitters[u].todo, f) == InTodo(submitters, f) + Tally(sub.todo, f)
  {
    var n := |submitters| - 1;
    if u < n {
      assert submitters[u := sub][..n] == submitters[..n][u := sub];
      TodoPut(submitters[..n], u, sub, f);
    } else {
      assert submitters[u := sub][..n] == submitters[..n];
    }
  }

  /** Parts started and not yet applied, wherever they are. */
  ghost function Unapplied(p: Pool, f: Part -> bool): nat {
    InTodo(p.submitters, f) + InQueues(p.queues, f) + InHands(p.busy, f) + Tally(p.lost, f)
  }

  /** Every started part is in exactly one place. */
  ghost predicate Accounted(p: Pool, f: Part -> bool) {
    && Tally(p.started, f) == Unapplied(p, f) + Tally(p.applied, f)
    && Tally(p.applied, f) == Tally(p.finishing, f) + Tally(p.arrived, f)
  }

  lemma {:induction false} BeginAccounted(p: Pool, s: Step, route: Router, f: Part -> bool)
    requires CanStep(p, s) && Accounted(p, f) && s.Begin?
    ensures Accounted(Next(p, s, route), f)
  {
    var parts := PartsOf(s.batch, s.declares, s.calls, route, |p.queues|);
    TodoPut(p.submitters, s.u, Next(p, s, route).submitters[s.u], f);
    TallyAppend(p.started, parts, f);
  }

  lemma {:induction false} InlineAccounted(p: Pool, s: Step, route: Router, f: Part -> bool)
    requires CanStep(p, s) && Accounted(p, f) && s.Inline?
    ensures Accounted(Next(p, s, route), f)
  {
    var todo := p.submitters[s.u].todo;
    TodoPut(p.submitters, s.u, Next(p, s, route).submitters[s.u], f);
    TallyHead(todo, f);
    TallyOne(todo[0], f);
    TallyAppend(p.applied, [todo[0]], f);
    TallyAppend(p.finishing, [todo[0]], f);
  }

  lemma {:induction false} PushAccounted(p: Pool, s: Step, route: Router, f: Part -> bool)
    requires CanStep(p, s) && Accounted(p, f) && s.Push?
    ensures Accounted(Next(p, s, route), f)
  {
    var next, todo := Next(p, s, route), p.submitters[s.u].todo;
    var w := todo[0].route.value;
    TodoPut(p.submitters, s.u, next.submitters[s.u], f);
    TallyHead(todo, f);
    TallyOne(todo[0], f);
    TallyAppend(p.queues[w].items, [todo[0]], f);
    QueuePut(p.queues, w, next.queues[w], f);
  }

  lemma {:induction false} DropAccounted(p: Pool, s: Step, route: Router, f: Part -> bool)
    requires CanStep(p, s) && Accounted(p, f) && (s.Reject? || s.Refuse?)
    ensures Accounted(Next(p, s, route), f)
  {
    var next, todo := Next(p, s, route), p.submitters[s.u].todo;
    TodoPut(p.submitters, s.u, next.submitters[s.u], f);
    TallyAppend(p.lost, todo, f);
    if s.Reject? {
      QueuePut(p.queues, todo[0].route.value, next.queues[todo[0].route.value], f);
    }
  }

  lemma {:induction false} PopAccounted(p: Pool, s: Step, route: Router, f: Part -> bool)
    requires CanStep(p, s) && Accounted(p, f) && s.Pop?
    ensures Accounted(Next(p, s, route), f)
  {
    var next, w := Next(p, s, route), s.w;
    TallyHead(p.queues[w].items, f);
    TallyOne(p.queues[w].items[0], f);
    QueuePut(p.queues, w, next.queues[w], f);
    HandPut(p.busy, w, next.busy[w], f);
  }

  lemma {:induction false} ApplyAccounted(p: Pool, s: Step, route: Router, f: Part -> bool)
    requires CanStep(p, s) && Accounted(p, f) && s.Apply?
    ensures Accounted(Next(p, s, route), f)
  {
    var part := p.busy[s.w].value;
    TallyOne(part, f);
    HandPut(p.busy, s.w, Option.None, f);
    TallyAppend(p.applied, [part], f);
    TallyAppend(p.finishing, [part], f);
  }

  lemma {:induction false} ArriveAccounted(p: Pool, s: Step, route: Router, f: Part -> bool)
    requires CanStep(p, s) && Accounted(p, f) && s.Arrive?
    ensures Accounted(Next(p, s, route), f)
  {
    TallyRemove(p.finishing, s.i, f);
    TallyAppend(p.arrived, [p.finishing[s.i]], f);
    TallyOne(p.finishing[s.i], f);
  }

  /** Every step moves parts from one place to another and loses track of none. */
  lemma {:induction false} StepAccounted(p: Pool, s: Step, route: Router, f: Part -> bool)
    requires CanStep(p, s) && Accounted(p, f)
    ensures Accounted(Next(p, s, route), f)
  {
    match s {
      case Begin(_, _, _, _) => BeginAccounted(p, s, route, f);
      case Inline(_) => InlineAccounted(p, s, route, f);
      case Clear(u) => TodoPut(p.submitters, u, Next(p, s, route).submitters[u], f);
      case Push(_) => PushAccounted(p, s, route, f);
      case Reject(_) => DropAccounted(p, s, route, f);
      case Refuse(_) => DropAccounted(p, s, route, f);
      case Pop(_) => PopAccounted(p, s, route, f);
      case Apply(_) => ApplyAccounted(p, s, route, f);
      case Arrive(_) => ArriveAccounted(p, s, route, f);
      case Stop =>
      case CloseOne(w) => QueuePut(p.queues, w, Next(p, s, route).queues[w], f);
      case DiscardOne(w) =>
        QueuePut(p.queues, w, Next(p, s, route).queues[w], f);
        TallyAppend(p.lost, p.queues[w].items, f);
    }
  }

  lemma {:induction false} EmptyPlaces(workers: nat, f: Part -> bool, capacity: nat, submitters: nat)
    ensures InQueues(seq(workers, _ => NewQueue<Part>(capacity)), f) == 0
    ensures InHands(seq(workers, _ => Option<Part>.None), f) == 0
    ensures InTodo(seq(submitters, _ => IDLE), f) == 0
    decreases workers + submitters
  {
    if workers > 0 {
      EmptyPlaces(workers - 1, f, capacity, submitters);
      var qs := seq(workers, _ => NewQueue<Part>(capacity));
      assert qs[..workers - 1] == seq(workers - 1, _ => NewQueue<Part>(capacity));
      var hs := seq(workers, _ => Option<Part>.None);
      assert hs[..workers - 1] == seq(workers - 1, _ => Option<Part>.None);
    } else if submitters > 0 {
      EmptyPlaces(workers, f, capacity, submitters - 1);
      var us := seq(submitters, _ => IDLE);
      assert us[..submitters - 1] == seq(submitters - 1, _ => IDLE);
    }
  }

  lemma {:induction false} NewIsAccounted(workers: nat, capacity: nat, submitters: nat, f: Part -> bool)
    ensures Accounted(NewPool(workers, capacity, submitters), f)
  {
    EmptyPlaces(if workers == 0 then 1 else workers, f, capacity, submitters);
  }

  lemma {:induction false} RunAccounted(p: Pool, ss: seq<Step>, route: Router, f: Part -> bool)
    requires Accounted(p, f) && Reach(p, ss, route).Some?
    ensures Accounted(Reach(p, ss, route).value, f)
  {
    if ss != [] {
      var n := |ss| - 1;
      RunAccounted(p, ss[..n], route, f);
      StepAccounted(Reach(p, ss[..n], route).value, ss[n], route, f);
    }
  }

  // ---------------------------------------------------------------------------
  // Queue bounds inside the pool
  // ---------------------------------------------------------------------------

  ghost predicate QueuesInv(p: Pool) { forall w | 0 <= w < |p.queues| :: QueueInv(p.queues[w]) }

  lemma {:induction false} StepKeepsQueues(p: Pool, s: Step, route: Router)
    requires CanStep(p, s) && QueuesInv(p)
    ensures QueuesInv(Next(p, s, route))
  {
    var next := Next(p, s, route);
    assert |next.queues| == |p.queues|;
    forall w | 0 <= w < |p.queues| ensures QueueInv(next.queues[w]) {
      assert QueueInv(p.queues[w]);
    }
  }

  /** Every queue of the pool is always a bounded queue in good order. */
  lemma {:induction false} RunKeepsQueues(workers: nat, capacity: nat, submitters: nat, ss: seq<Step>, route: Router)
    requires Reach(NewPool(workers, capacity, submitters), ss, route).Some?
    ensures QueuesInv(Reach(NewPool(workers, capacity, submitters), ss, route).value)
  {
    if ss != [] {
      var n := |ss| - 1;
      RunKeepsQueues(workers, capacity, submitters, ss[..n], route);
      StepKeepsQueues(Reach(NewPool(workers, capacity, submitters), ss[..n], route).value, ss[n], route);
    }
  }

  // ---------------------------------------------------------------------------
  // The countdown
  // ---------------------------------------------------------------------------

  ghost predicate CountdownRight(p: Pool, b: nat) {
    var f := (x: Part) => x.batch == b;
    && (b !in p.remaining ==> Tally(p.started, f) == 0 && multiset(p.fired)[b] == 0)
    && (b in p.remaining ==>
          && p.remaining[b] == Tally(p.started, f) - Tally(p.arrived, f)
          && multiset(p.fired)[b] == if p.remaining[b] == 0 then 1 else 0)
  }

  lemma {:induction false} TallyAll(parts: seq<Part>, f: Part -> bool, value: bool)
    requires forall i | 0 <= i < |parts| :: f(parts[i]) == value
    ensures Tally(parts, f) == if value then |parts| else 0
  {
    if parts != [] {
      TallyAll(parts[..|parts| - 1], f, value);
    }
  }

  lemma {:induction false} SplitBatch(batch: nat, calls: seq<Call>, route: Router, n: nat)
    ensures forall i | 0 <= i < |Split(batch, calls, route, n)| :: Split(batch, calls, route, n)[i].batch == batch
  {
    if n > 0 {
      SplitBatch(batch, calls, route, n - 1);
    }
  }

  lemma {:induction false} BeginCounts(p: Pool, s: Step, route: Router, b: nat)
    requires CanStep(p, s) && s.Begin? && CountdownRight(p, b) && Accounted(p, (x: Part) => x.batch == b)
    ensures CountdownRight(Next(p, s, route), b)
  {
    var f := (x: Part) => x.batch == b;
    var parts := PartsOf(s.batch, s.declares, s.calls, route, |p.queues|);
    SplitBatch(s.batch, s.calls, route, |p.queues|);
    TallyAll(parts, f, s.batch == b);
    TallyAppend(p.started, parts, f);
    FiredAppend(p.fired, s.batch, b);
  }

  lemma FiredAppend(fired: seq<nat>, x: nat, b: nat)
    ensures multiset(fired + [x])[b] == multiset(fired)[b] + (if x == b then 1 else 0)
  {
  }

  lemma {:induction false} ArriveCounts(p: Pool, s: Step, route: Router, b: nat)
    requires CanStep(p, s) && s.Arrive? && CountdownRight(p, b) && Accounted(p, (x: Part) => x.batch == b)
    ensures CountdownRight(Next(p, s, route), b)
  {
    var f := (x: Part) => x.batch == b;
    var part := p.finishing[s.i];
    TallyRemove(p.finishing, s.i, f);
    TallyAppend(p.arrived, [part], f);
    TallyOne(part, f);
    FiredAppend(p.fired, part.batch, b);
  }

  lemma {:induction false} OtherStepsKeepBooks(p: Pool, s: Step, route: Router)
    requires CanStep(p, s) && !s.Begin? && !s.Arrive?
    ensures
      var next := Next(p, s, route);
      next.remaining == p.remaining && next.fired == p.fired && next.started == p.started && next.arrived == p.arrived
  {
  }

  lemma {:induction false} StepCounts(p: Pool, s: Step, route: Router, b: nat)
    requires CanStep(p, s) && CountdownRight(p, b) && Accounted(p, (x: Part) => x.batch == b)
    ensures CountdownRight(Next(p, s, route), b)
  {
    if s.Begin? {
      BeginCounts(p, s, route, b);
    } else if s.Arrive? {
      ArriveCounts(p, s, route, b);
    } else {
      OtherStepsKeepBooks(p, s, route);
    }
  }

  lemma {:induction false} RunCounts(start: Pool, ss: seq<Step>, route: Router, b: nat)
    requires Reach(start, ss, route).Some?
    requires CountdownRight(start, b) && Accounted(start, (x: Part) => x.batch == b)
    ensures CountdownRight(Reach(start, ss, route).value, b)
  {
    if ss != [] {
      var n := |ss| - 1;
      RunCounts(start, ss[..n], route, b);
      RunAccounted(start, ss[..n], route, (x: Part) => x.batch == b);
      StepCounts(Reach(start, ss[..n], route).value, ss[n], route, b);
    }
  }

  lemma {:induction false} TallyMono(parts: seq<Part>, f: Part -> bool, g: Part -> bool)
    requires forall x :: f(x) ==> g(x)
    ensures Tally(parts, f) <= Tally(parts, g)
  {
    if parts != [] {
      TallyMono(parts[..|parts| - 1], f, g);
    }
  }

  lemma {:induction false} QueuesMono(queues: seq<QueueState<Part>>, f: Part -> bool, g: Part -> bool)
    requires forall x :: f(x) ==> g(x)
    ensures InQueues(queues, f) <= InQueues(queues, g)
  {
    if queues != [] {
      QueuesMono(queues[..|queues| - 1], f, g);
      TallyMono(queues[|queues| - 1].items, f, g);
    }
  }

  lemma {:induction false} HandsMono(busy: seq<Option<Part>>, f: Part -> bool, g: Part -> bool)
    requires forall x :: f(x) ==> g(x)
    ensures InHands(busy, f) <= InHands(busy, g)
  {
    if busy != [] {
      HandsMono(busy[..|busy| - 1], f, g);
      TallyMono(PartIn(busy[|busy| - 1]), f, g);
    }
  }

  lemma {:induction false} TodoMono(submitters: seq<Submitter>, f: Part -> bool, g: Part -> bool)
    requires forall x :: f(x) ==> g(x)
    ensures InTodo(submitters, f) <= InTodo(submitters, g)
  {
    if submitters != [] {
      TodoMono(submitters[..|submitters| - 1], f, g);
      TallyMono(submitters[|submitters| - 1].todo, f, g);
    }
  }

  lemma {:induction false} TallyMember(parts: seq<Part>, q: Part)
    ensures Tally(parts, x => x == q) > 0 <==> q in parts
  {
    if parts != [] {
      var n := |parts| - 1;
      TallyMember(parts[..n], q);
      assert parts == parts[..n] + [parts[n]];
    }
  }

  lemma {:induction false} NothingLeft(p: Pool, b: nat, q: Part)
    requires q in p.started && q.batch == b
    requires Accounted(p, (x: Part) => x.batch == b) && Accounted(p, (x: Part) => x == q)
    requires Unapplied(p, (x: Part) => x.batch == b) == 0
    ensures q in p.applied
  {
    var f, g := (x: Part) => x == q, (x: Part) => x.batch == b;
    TodoMono(p.submitters, f, g);
    QueuesMono(p.queues, f, g);
    HandsMono(p.busy, f, g);
    TallyMono(p.lost, f, g);
    TallyMember(p.started, q);
    TallyMember(p.applied, q);
  }

  /**
   Over every interleaving, a batch's completion fires at most once, and once it has fired every
   part of the batch has been applied and none is pending, in hand or lost.
   */
  lemma {:induction false} CompletionIsSafe(workers: nat, capacity: nat, submitters: nat, ss: seq<Step>, route: Router, b: nat)
    requires Reach(NewPool(workers, capacity, submitters), ss, route).Some?
    ensures
      var p := Reach(NewPool(workers, capacity, submitters), ss, route).value;
      && multiset(p.fired)[b] <= 1
      && (b in p.fired ==>
            && (forall q | q in p.started && q.batch == b :: q in p.applied)
            && Unapplied(p, (x: Part) => x.batch == b) == 0)
  {
    var start := NewPool(workers, capacity, submitters);
    var p := Reach(start, ss, route).value;
    NewIsAccounted(workers, capacity, submitters, (x: Part) => x.batch == b);
    RunAccounted(start, ss, route, (x: Part) => x.batch == b);
    RunCounts(start, ss, route, b);
    if b in p.fired {
      assert multiset(p.fired)[b] > 0;
      forall q | q in p.started && q.batch == b ensures q in p.applied {
        NewIsAccounted(workers, capacity, submitters, (x: Part) => x == q);
        RunAccounted(start, ss, route, (x: Part) => x == q);
        NothingLeft(p, b, q);
      }
    }
  }
}

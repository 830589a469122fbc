/**
 * Cascades of automation events. Executing an event may emit further events one hop
 * deeper; events at the depth limit are dropped. The queue may execute an event
 * several times, and every execution may emit again.
 */
module Cascade {
  import opened AutomationExecutor
  import Queue = OutboxProtocol

  datatype Event = Event(depth: nat, executions: nat, emitted: nat, settled: bool)

  /** How many events one execution emits at most, and how often an event is executed at most. */
  datatype Limits = Limits(perExecution: nat, executions: nat)

  datatype Step = Executes(started: nat) | Emits(parent: nat) | Settles(event: nat)

  predicate Enabled(events: seq<Event>, step: Step, lim: Limits) {
    match step
    case Executes(i) => i < |events| && events[i].executions < lim.executions
    case Emits(i) =>
      i < |events| && events[i].depth < MAX_CASCADE_DEPTH
      && events[i].emitted < lim.perExecution * events[i].executions
    case Settles(i) => i < |events| && !events[i].settled
  }

  function Next(events: seq<Event>, step: Step): seq<Event>
    requires step.Executes? ==> step.started < |events|
    requires step.Emits? ==> step.parent < |events|
    requires step.Settles? ==> step.event < |events|
  {
    match step
    case Executes(i) => events[i := events[i].(executions := events[i].executions + 1)]
    case Emits(i) =>
      events[i := events[i].(emitted := events[i].emitted + 1)] + [Event(events[i].depth + 1, 0, 0, false)]
    case Settles(i) => events[i := events[i].(settled := true)]
  }

  /** Some sequence of enabled steps leads from `a` to `b`. */
  ghost predicate Reaches(a: seq<Event>, steps: seq<Step>, b: seq<Event>, lim: Limits)
    decreases |steps|
  {
    if steps == [] then a == b
    else Enabled(a, steps[0], lim) && Reaches(Next(a, steps[0]), steps[1..], b, lim)
  }

  predicate Root(e: Event) {
    e == Event(0, 0, 0, false)
  }

  // ----------------------------------------------------------------- counting

  function CountAt(events: seq<Event>, d: nat): nat {
    if events == [] then 0
    else CountAt(events[..|events| - 1], d) + if events[|events| - 1].depth == d then 1 else 0
  }

  function EmittedAt(events: seq<Event>, d: nat): nat {
    if events == [] then 0
    else
      var last := events[|events| - 1];
      EmittedAt(events[..|events| - 1], d) + if last.depth == d then last.emitted else 0
  }

  function Settled(events: seq<Event>): nat {
    if events == [] then 0
    else Settled(events[..|events| - 1]) + if events[|events| - 1].settled then 1 else 0
  }

  function Executions(events: seq<Event>): nat {
    if events == [] then 0 else Executions(events[..|events| - 1]) + events[|events| - 1].executions
  }

  lemma {:induction false} CountsUpdate(events: seq<Event>, i: nat, e: Event, d: nat)
    requires i < |events| && e.depth == events[i].depth
    ensures CountAt(events[i := e], d) == CountAt(events, d)
    ensures EmittedAt(events[i := e], d) ==
      EmittedAt(events, d) + if e.depth == d then e.emitted - events[i].emitted else 0
    ensures Settled(events[i := e]) ==
      Settled(events) + (if e.settled then 1 else 0) - (if events[i].settled then 1 else 0)
    ensures Executions(events[i := e]) == Executions(events) + e.executions - events[i].executions
  {
    var n := |events| - 1;
    if i < n {
      CountsUpdate(events[..n], i, e, d);
      assert events[i := e][..n] == events[..n][i := e];
    } else {
      assert events[i := e][..n] == events[..n];
    }
  }

  lemma CountsAppend(events: seq<Event>, e: Event, d: nat)
    ensures CountAt(events + [e], d) == CountAt(events, d) + if e.depth == d then 1 else 0
    ensures EmittedAt(events + [e], d) == EmittedAt(events, d) + if e.depth == d then e.emitted else 0
    ensures Settled(events + [e]) == Settled(events) + if e.settled then 1 else 0
    ensures Executions(events + [e]) == Executions(events) + e.executions
  {
    assert (events + [e])[..|events|] == events;
  }

  lemma {:induction false} EmittedBounded(events: seq<Event>, d: nat, bound: nat)
    requires forall e :: e in events ==> e.emitted <= bound
    ensures EmittedAt(events, d) <= bound * CountAt(events, d)
  {
    if events != [] {
      var n := |events| - 1;
      assert forall e :: e in events[..n] ==> e in events;
      assert events[n] in events;
      EmittedBounded(events[..n], d, bound);
      var c := CountAt(events[..n], d);
      assert bound * (c + 1) == bound * c + bound;
    }
  }

  lemma MoreTimes(k: nat, a: nat, b: nat)
    requires a <= b
    ensures k * a <= k * b && k * (a + 1) == k * a + k && (2 + k) * a == 2 * a + k * a
  {
  }

  lemma {:induction false} WorkAtMost(events: seq<Event>, executions: nat)
    requires forall e :: e in events ==> e.executions <= executions
    ensures Settled(events) <= |events| && Executions(events) <= executions * |events|
  {
    if events != [] {
      var n := |events| - 1;
      assert events[n] in events && forall e :: e in events[..n] ==> e in events;
      WorkAtMost(events[..n], executions);
      MoreTimes(executions, n, n);
    }
  }

  lemma {:induction false} AllDepths(events: seq<Event>)
    requires forall e :: e in events ==> e.depth <= 4
    ensures |events| ==
      CountAt(events, 0) + CountAt(events, 1) + CountAt(events, 2) + CountAt(events, 3) + CountAt(events, 4)
  {
    if events != [] {
      var n := |events| - 1;
      assert events[n] in events && forall e :: e in events[..n] ==> e in events;
      AllDepths(events[..n]);
    }
  }

  // ---------------------------------------------------------------- invariant

  ghost predicate WithinLimits(e: Event, lim: Limits) {
    && e.executions <= lim.executions && e.emitted <= lim.perExecution * e.executions
    && e.depth <= MAX_CASCADE_DEPTH && (e.depth == MAX_CASCADE_DEPTH ==> e.emitted == 0)
  }

  /** Events one hop deeper are exactly those emitted one hop above; only depths 0 to 3 ever emit. */
  ghost predicate Inv(events: seq<Event>, roots: nat, lim: Limits) {
    && CountAt(events, 0) == roots
    && (forall d: nat :: CountAt(events, d + 1) == EmittedAt(events, d))
    && forall e :: e in events ==> WithinLimits(e, lim)
  }

  /** Steps taken so far can be read off the table: each adds an event, an execution or a mark. */
  function Work(events: seq<Event>): nat {
    |events| + Settled(events) + Executions(events)
  }

  lemma UpdateKeepsInv(events: seq<Event>, i: nat, e: Event, roots: nat, lim: Limits)
    requires Inv(events, roots, lim) && i < |events| && WithinLimits(e, lim)
    requires e.depth == events[i].depth && e.emitted == events[i].emitted
    ensures Inv(events[i := e], roots, lim)
  {
    var after := events[i := e];
    CountsUpdate(events, i, e, 0);
    forall d: nat ensures CountAt(after, d + 1) == EmittedAt(after, d) {
      CountsUpdate(events, i, e, d);
      CountsUpdate(events, i, e, d + 1);
    }
    assert forall x :: x in after ==> x == e || x in events;
  }

  lemma EmitKeepsInv(events: seq<Event>, i: nat, roots: nat, lim: Limits)
    requires Inv(events, roots, lim) && Enabled(events, Emits(i), lim)
    ensures Inv(Next(events, Emits(i)), roots, lim)
  {
    var e := events[i].(emitted := events[i].emitted + 1);
    var child := Event(events[i].depth + 1, 0, 0, false);
    var mid := events[i := e];
    assert events[i] in events;
    forall d: nat
      ensures CountAt(mid + [child], d) == CountAt(events, d) + if d == child.depth then 1 else 0
      ensures EmittedAt(mid + [child], d) == EmittedAt(events, d) + if d == e.depth then 1 else 0
    {
      CountsUpdate(events, i, e, d);
      CountsAppend(mid, child, d);
    }
  }

  lemma NextKeepsInv(events: seq<Event>, step: Step, roots: nat, lim: Limits)
    requires Inv(events, roots, lim) && Enabled(events, step, lim)
    ensures Inv(Next(events, step), roots, lim)
    ensures Work(Next(events, step)) == Work(events) + 1
  {
    match step
    case Executes(i) =>
      var e := events[i].(executions := events[i].executions + 1);
      assert events[i] in events;
      assert lim.perExecution * e.executions == lim.perExecution * events[i].executions + lim.perExecution;
      UpdateKeepsInv(events, i, e, roots, lim);
      CountsUpdate(events, i, e, 0);
    case Emits(i) =>
      var e := events[i].(emitted := events[i].emitted + 1);
      EmitKeepsInv(events, i, roots, lim);
      CountsUpdate(events, i, e, 0);
      CountsAppend(events[i := e], Event(events[i].depth + 1, 0, 0, false), 0);
    case Settles(i) =>
      assert events[i] in events;
      UpdateKeepsInv(events, i, events[i].(settled := true), roots, lim);
      CountsUpdate(events, i, events[i].(settled := true), 0);
  }

  /** 1 + B + B^2 + B^3 + B^4. */
  function Geometric(bound: nat): nat {
    1 + bound * (1 + bound * (1 + bound * (1 + bound)))
  }

  /** What one event emits at most over all its executions. */
  function Emissions(lim: Limits): nat {
    lim.perExecution * lim.executions
  }

  lemma EmittedWithin(e: Event, lim: Limits)
    requires WithinLimits(e, lim)
    ensures e.emitted <= Emissions(lim)
  {
    assert lim.perExecution * e.executions <= lim.perExecution * lim.executions;
  }

  lemma TotalBounded(events: seq<Event>, roots: nat, lim: Limits)
    requires Inv(events, roots, lim)
    ensures |events| <= roots * Geometric(Emissions(lim))
  {
    var bound := Emissions(lim);
    AllDepths(events);
    var c1, c2, c3, c4 := CountAt(events, 1), CountAt(events, 2), CountAt(events, 3), CountAt(events, 4);
    assert CountAt(events, 0 + 1) == EmittedAt(events, 0) && CountAt(events, 1 + 1) == EmittedAt(events, 1);
    assert CountAt(events, 2 + 1) == EmittedAt(events, 2) && CountAt(events, 3 + 1) == EmittedAt(events, 3);
    forall e | e in events ensures e.emitted <= bound { EmittedWithin(e, lim); }
    EmittedBounded(events, 0, bound);
    EmittedBounded(events, 1, bound);
    EmittedBounded(events, 2, bound);
    EmittedBounded(events, 3, bound);
    Horner(roots, c1, c2, c3, c4, bound);
  }

  lemma Horner(c0: nat, c1: nat, c2: nat, c3: nat, c4: nat, b: nat)
    requires c1 <= b * c0 && c2 <= b * c1 && c3 <= b * c2 && c4 <= b * c3
    ensures c0 + c1 + c2 + c3 + c4 <= c0 * Geometric(b)
  {
    Level(c3, c4, 1, b);
    Level(c2, c3, 1 + b, b);
    Level(c1, c2, 1 + b * (1 + b), b);
    Level(c0, c1, 1 + b * (1 + b * (1 + b)), b);
  }

  lemma Level(c: nat, next: nat, g: nat, b: nat)
    requires next <= b * c
    ensures c + next * g <= c * (1 + b * g)
  {
    assert next * g <= (b * c) * g;
    assert (b * c) * g == c * (b * g);
    assert c * (1 + b * g) == c + c * (b * g);
  }

  lemma {:induction false} RunKeepsInv(a: seq<Event>, steps: seq<Step>, b: seq<Event>, roots: nat, lim: Limits)
    requires Inv(a, roots, lim) && Reaches(a, steps, b, lim)
    ensures Inv(b, roots, lim) && |steps| == Work(b) - Work(a)
    decreases |steps|
  {
    if steps != [] {
      NextKeepsInv(a, steps[0], roots, lim);
      RunKeepsInv(Next(a, steps[0]), steps[1..], b, roots, lim);
    }
  }

  lemma {:induction false} RootsInv(roots: seq<Event>, lim: Limits)
    requires forall e :: e in roots ==> Root(e)
    ensures Inv(roots, |roots|, lim)
  {
    if roots != [] {
      var n := |roots| - 1;
      assert roots[n] in roots && forall e :: e in roots[..n] ==> e in roots;
      RootsInv(roots[..n], lim);
      forall d: nat ensures CountAt(roots, d + 1) == EmittedAt(roots, d) {
        assert CountAt(roots[..n], d + 1) == EmittedAt(roots[..n], d);
      }
    }
  }

  lemma Sums(n: nat, settled: nat, executed: nat, k: nat, most: nat)
    requires settled <= n <= most && executed <= k * n
    ensures n + settled + executed <= (2 + k) * most
  {
    MoreTimes(k, n, most);
    MoreTimes(k, most, most);
  }

  lemma WorkWithin(events: seq<Event>, lim: Limits, most: nat)
    requires |events| <= most && forall e :: e in events ==> WithinLimits(e, lim)
    ensures Work(events) <= (2 + lim.executions) * most
  {
    WorkAtMost(events, lim.executions);
    Sums(|events|, Settled(events), Executions(events), lim.executions, most);
  }

  /**
   * From n root events, when an execution emits at most p others and an event is executed at most k
   * times: with B = p * k never more than n * (1 + B + .. + B^4) events, none deeper than 4, none
   * emitted below depth 3, and no run is longer than (2 + k) times that bound, so the cascade ends.
   */
  lemma CascadeEnds(roots: seq<Event>, steps: seq<Step>, events: seq<Event>, lim: Limits)
    requires forall e :: e in roots ==> Root(e)
    requires Reaches(roots, steps, events, lim)
    ensures |events| <= |roots| * Geometric(Emissions(lim))
    ensures forall e :: e in events ==> e.depth <= MAX_CASCADE_DEPTH && (e.emitted > 0 ==> e.depth <= 3)
    ensures |steps| <= (2 + lim.executions) * (|roots| * Geometric(Emissions(lim)))
  {
    RootsInv(roots, lim);
    RunKeepsInv(roots, steps, events, |roots|, lim);
    TotalBounded(events, |roots|, lim);
    WorkWithin(events, lim, |roots| * Geometric(Emissions(lim)));
  }

  /** What the queue allows an event whose job is evicted and stalls at most so often. */
  function QueueLimits(perExecution: nat, evictions: nat, stalls: nat): Limits {
    Limits(perExecution, Queue.JOB_ATTEMPTS * (1 + evictions) + stalls)
  }

  /** In every run of the queue an event is started no more often than these limits say. */
  lemma QueueKeepsLimits(now: int, steps: seq<Queue.Step>, id: Id, perExecution: nat, evictions: nat, stalls: nat)
    requires Queue.Taken(Queue.Empty(now), steps, Queue.EvictionsOf(id)) <= evictions
    requires Queue.Taken(Queue.Empty(now), steps, Queue.StallsOf(id)) <= stalls
    ensures Queue.Taken(Queue.Empty(now), steps, Queue.StartsOf(id)) <=
      QueueLimits(perExecution, evictions, stalls).executions
  {
    Queue.ExecutionsAreBounded(now, steps, id);
  }
}

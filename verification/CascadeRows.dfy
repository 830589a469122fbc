/**
 * The outbox table while cascades run: the events an execution emits are written with
 * the depth of their parent's row plus one. What is written is a cascade, so the table
 * is as bounded as the cascade is.
 */
module CascadeRows {
  import opened Common
  import opened OutboxDedup
  import Cascade

  /** What the table holds, and how often each row was executed and has had a child written. */
  datatype World = World(rows: seq<Row>, runs: seq<Cascade.Event>)

  datatype Step = Executes(started: nat) | Emits(parent: nat, call: Call) | Settles(row: nat)

  /** An action of a running rule passes on its row's depth plus one. */
  predicate Enabled(w: World, step: Step, lim: Cascade.Limits)
    requires |w.runs| == |w.rows|
  {
    match step
    case Executes(i) => Cascade.Enabled(w.runs, Cascade.Executes(i), lim)
    case Emits(i, call) =>
      Cascade.Enabled(w.runs, Cascade.Emits(i), lim) && call.depth == w.rows[i].depth + 1
    case Settles(i) => Cascade.Enabled(w.runs, Cascade.Settles(i), lim)
  }

  /** An emission that the key drops leaves no row. */
  function Next(w: World, step: Step, lim: Cascade.Limits): World
    requires |w.runs| == |w.rows| && Enabled(w, step, lim)
  {
    match step
    case Executes(i) => w.(runs := w.runs[i := w.runs[i].(executions := w.runs[i].executions + 1)])
    case Emits(i, call) =>
      var rows := OutboxDedup.Next(w.rows, call);
      if rows == w.rows then w
      else World(rows, w.runs[i := w.runs[i].(emitted := w.runs[i].emitted + 1)]
                       + [Cascade.Event(rows[|rows| - 1].depth, 0, 0, false)])
    case Settles(i) => w.(runs := w.runs[i := w.runs[i].(settled := true)])
  }

  ghost predicate Reaches(a: World, steps: seq<Step>, b: World, lim: Cascade.Limits)
    requires |a.runs| == |a.rows|
    decreases |steps|
  {
    if steps == [] then a == b
    else
      Enabled(a, steps[0], lim)
      && |Next(a, steps[0], lim).runs| == |Next(a, steps[0], lim).rows|
      && Reaches(Next(a, steps[0], lim), steps[1..], b, lim)
  }

  /** Each row is at the depth its executions are counted for. */
  ghost predicate SameDepths(w: World) {
    |w.runs| == |w.rows| && forall i :: 0 <= i < |w.rows| ==> w.rows[i].depth == w.runs[i].depth
  }

  /** A step of the table is a step of the cascade, or a dropped emission. */
  lemma StepIsCascade(w: World, step: Step, lim: Cascade.Limits) returns (steps: seq<Cascade.Step>)
    requires SameDepths(w) && Enabled(w, step, lim)
    ensures SameDepths(Next(w, step, lim)) && |steps| <= 1
    ensures steps == [] ==> Next(w, step, lim) == w
    ensures steps != [] ==>
      Cascade.Enabled(w.runs, steps[0], lim) && Next(w, step, lim).runs == Cascade.Next(w.runs, steps[0])
  {
    match step
    case Executes(i) => steps := [Cascade.Executes(i)];
    case Emits(i, call) => steps := if Next(w, step, lim) == w then [] else [Cascade.Emits(i)];
    case Settles(i) => steps := [Cascade.Settles(i)];
  }

  lemma {:induction false} RunIsCascade(a: World, steps: seq<Step>, b: World, lim: Cascade.Limits)
    returns (cascade: seq<Cascade.Step>)
    requires SameDepths(a) && Reaches(a, steps, b, lim)
    ensures SameDepths(b) && Cascade.Reaches(a.runs, cascade, b.runs, lim)
    decreases |steps|
  {
    cascade := [];
    if steps != [] {
      var first := StepIsCascade(a, steps[0], lim);
      var rest := RunIsCascade(Next(a, steps[0], lim), steps[1..], b, lim);
      cascade := first + rest;
      if first == [] {
        assert cascade == rest;
      } else {
        assert cascade[0] == first[0] && cascade[1..] == rest;
      }
    }
  }

  /** Nothing has been done with the rows yet. */
  function Untouched(rows: seq<Row>): World {
    World(rows, seq(|rows|, i requires 0 <= i < |rows| => Cascade.Event(rows[i].depth, 0, 0, false)))
  }

  /**
   * From n rows written at depth 0, with at most B written emissions per row, the table never has more than
   * n * (1 + B + .. + B^4) rows, none deeper than 4, and only rows up to depth 3 have children.
   */
  lemma TableIsBounded(roots: seq<Row>, steps: seq<Step>, w: World, lim: Cascade.Limits)
    requires (forall r :: r in roots ==> r.depth == 0) && Reaches(Untouched(roots), steps, w, lim)
    ensures |w.rows| <= |roots| * Cascade.Geometric(Cascade.Emissions(lim))
    ensures |w.runs| == |w.rows|
    ensures forall i :: 0 <= i < |w.rows| ==> w.rows[i].depth <= 4 && (w.runs[i].emitted > 0 ==> w.rows[i].depth <= 3)
  {
    var start := Untouched(roots);
    forall e | e in start.runs ensures Cascade.Root(e) {
      var i :| 0 <= i < |roots| && start.runs[i] == e;
      assert roots[i] in roots;
    }
    var cascade := RunIsCascade(start, steps, w, lim);
    Cascade.CascadeEnds(start.runs, cascade, w.runs, lim);
    assert forall i :: 0 <= i < |w.runs| ==> w.runs[i] in w.runs;
  }

  /** A written emission is one hop deeper than the row whose execution made it, and carries its own event. */
  lemma EmissionIsOneDeeper(w: World, i: nat, call: Call, lim: Cascade.Limits)
    requires SameDepths(w) && Enabled(w, Emits(i, call), lim)
    ensures var v := Next(w, Emits(i, call), lim);
      v == w || (
        && |v.rows| == |w.rows| + 1 && w.rows <= v.rows
        && v.rows[|w.rows|].depth == w.rows[i].depth + 1 && v.rows[|w.rows|].event == call.event
        && v.runs == Cascade.Next(w.runs, Cascade.Emits(i)))
  {
  }
}

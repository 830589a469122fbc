/**
 * The reporting hierarchy of one organization's agents: creating, re-parenting and
 * soft-deleting agents, with a cycle check that follows at most fifty parents.
 */
module AgentHierarchy {
  import opened Common

  type Id = nat

  const MAX_DEPTH := 50

  datatype Agent = Agent(parent: Option<Id>, deleted: bool)
  type Agents = map<Id, Agent>

  datatype Error = NotFound | ParentNotFound | SelfParent | WouldCycle

  /** What an update says about the parent: nothing, none, or an agent. */
  datatype Change = Keep | Clear | Report(to: Id)

  datatype Step = Create(id: Id, parent: Option<Id>) | Update(agent: Id, change: Change) | SoftDelete(gone: Id)

  predicate Live(t: Agents, a: Id) {
    a in t && !t[a].deleted
  }

  /** The live parent of a live agent. */
  function Up(t: Agents, a: Id): Option<Id> {
    if Live(t, a) && t[a].parent.Some? && Live(t, t[a].parent.value) then t[a].parent else None
  }

  /** The agent `n` steps up from `a`, if there is one. */
  function Walk(t: Agents, a: Id, n: nat): Option<Id> {
    if n == 0 then (if Live(t, a) then Some(a) else None)
    else
      var b := Walk(t, a, n - 1);
      if b.None? then None else Up(t, b.value)
  }

  /** Is `ancestor` among the first fifty agents above `candidate`. */
  ghost predicate Descends(t: Agents, candidate: Id, ancestor: Id) {
    exists k :: 1 <= k <= MAX_DEPTH && Walk(t, candidate, k) == Some(ancestor)
  }

  /** The agent is found within so many steps up. */
  ghost predicate IsAboveWithin(t: Agents, ancestor: Id, candidate: Id, steps: nat) {
    exists k :: 1 <= k <= steps && Walk(t, candidate, k) == Some(ancestor)
  }

  ghost function Updated(t: Agents, id: Id, change: Change): Result<Agents, Error> {
    if !Live(t, id) then Err(NotFound)
    else match change
      case Keep => Ok(t)
      case Clear => Ok(t[id := t[id].(parent := None)])
      case Report(to) =>
        if to == id then Err(SelfParent)
        else if !Live(t, to) then Err(ParentNotFound)
        else if Descends(t, to, id) then Err(WouldCycle)
        else Ok(t[id := t[id].(parent := Some(to))])
  }

  function Created(t: Agents, id: Id, parent: Option<Id>): Result<Agents, Error> {
    if parent.Some? && !Live(t, parent.value) then Err(ParentNotFound)
    else Ok(t[id := Agent(parent, false)])
  }

  /** Ids are never given out twice. */
  ghost function Next(t: Agents, step: Step): Agents {
    match step
    case Create(id, parent) =>
      if id !in t && Created(t, id, parent).Ok? then Created(t, id, parent).value else t
    case Update(id, change) =>
      if Updated(t, id, change).Ok? then Updated(t, id, change).value else t
    case SoftDelete(id) =>
      if Live(t, id) then t[id := t[id].(deleted := true)] else t
  }

  ghost function Run(t: Agents, steps: seq<Step>): Agents
    decreases |steps|
  {
    if steps == [] then t else Run(Next(t, steps[0]), steps[1..])
  }

  ghost predicate CycleOf(t: Agents, a: Id, n: nat) {
    n >= 1 && Walk(t, a, n) == Some(a)
  }

  /** No agent is above itself. */
  ghost predicate Forest(t: Agents) {
    forall a, n :: !CycleOf(t, a, n)
  }

  ghost predicate NoShortCycle(t: Agents) {
    forall a, n: nat :: n <= MAX_DEPTH + 1 ==> !CycleOf(t, a, n)
  }

  /** Parents are rows of the table. */
  ghost predicate Referenced(t: Agents) {
    forall a :: a in t && t[a].parent.Some? ==> t[a].parent.value in t
  }

  ghost predicate Inv(t: Agents) {
    Referenced(t) && NoShortCycle(t)
  }

  // ------------------------------------------------------------------- walks

  lemma {:induction false} WalkAdds(t: Agents, a: Id, b: Id, m: nat, n: nat)
    requires Walk(t, a, m) == Some(b)
    ensures Walk(t, a, m + n) == Walk(t, b, n)
  {
    if n == 0 {
      WalkIsLive(t, a, m);
    } else {
      WalkAdds(t, a, b, m, n - 1);
    }
  }

  lemma {:induction false} WalkIsLive(t: Agents, a: Id, n: nat)
    ensures Walk(t, a, n).Some? ==> Live(t, Walk(t, a, n).value)
  {
  }

  /** The first time a walk meets `x`. */
  lemma {:induction false} FirstMeeting(t: Agents, a: Id, x: Id, from: nat, n: nat) returns (m: nat)
    requires from <= n && Walk(t, a, n) == Some(x)
    ensures from <= m <= n && Walk(t, a, m) == Some(x)
    ensures forall j :: from <= j < m ==> Walk(t, a, j) != Some(x)
    decreases n - from
  {
    if Walk(t, a, from) == Some(x) {
      m := from;
    } else {
      m := FirstMeeting(t, a, x, from + 1, n);
    }
  }

  /** Walks that leave `x` out of it are the same in tables that differ at `x` alone. */
  lemma {:induction false} SameBefore(t: Agents, t': Agents, x: Id, a: Id, n: nat)
    requires forall b :: Live(t, b) <==> Live(t', b)
    requires forall b :: b != x ==> Up(t, b) == Up(t', b)
    requires forall j :: 0 <= j < n ==> Walk(t, a, j) != Some(x)
    ensures Walk(t, a, n) == Walk(t', a, n)
  {
    if n > 0 {
      SameBefore(t, t', x, a, n - 1);
      assert Walk(t, a, n - 1) != Some(x);
    }
  }

  lemma {:induction false} FewerWalks(t: Agents, t': Agents, a: Id, n: nat)
    requires forall b :: Live(t', b) ==> Live(t, b)
    requires forall b :: Up(t', b).Some? ==> Up(t, b) == Up(t', b)
    ensures Walk(t', a, n).Some? ==> Walk(t, a, n) == Walk(t', a, n)
  {
    if n > 0 { FewerWalks(t, t', a, n - 1); }
  }

  // ------------------------------------------------------------------ cycles

  ghost predicate Reparented(t: Agents, t': Agents, x: Id, p: Id) {
    Live(t, x) && Live(t, p) && t' == t[x := t[x].(parent := Some(p))]
  }

  /** A cycle that was not there before goes through the new edge: the new parent was already below. */
  lemma {:induction false} NewCycleNeedsPath(t: Agents, t': Agents, x: Id, p: Id, a: Id, n: nat) returns (k: nat)
    requires Reparented(t, t', x, p) && CycleOf(t', a, n)
    ensures CycleOf(t, a, n) || (k < n && Walk(t, p, k) == Some(x))
  {
    k := 0;
    if j :| 0 <= j < n && Walk(t', a, j) == Some(x) {
      WalkAdds(t', a, a, n, j);
      WalkAdds(t', a, x, j, n);
      assert j + n == n + j;
      assert Walk(t', x, 0) == Some(x) && Walk(t', x, 1) == Some(p);
      var m := FirstMeeting(t', x, x, 1, n);
      WalkAdds(t', x, p, 1, m - 1);
      k := m - 1;
      forall i | 0 <= i < k ensures Walk(t', p, i) != Some(x) {
        WalkAdds(t', x, p, 1, i);
      }
      SameBefore(t', t, x, p, k);
    } else {
      SameBefore(t', t, x, a, n);
    }
  }

  lemma {:induction false} PathMakesCycle(t: Agents, t': Agents, x: Id, p: Id, k: nat) returns (m: nat)
    requires Reparented(t, t', x, p) && Walk(t, p, k) == Some(x)
    ensures CycleOf(t', x, m)
  {
    var j := FirstMeeting(t, p, x, 0, k);
    SameBefore(t, t', x, p, j);
    assert Walk(t', x, 0) == Some(x) && Walk(t', x, 1) == Some(p);
    WalkAdds(t', x, p, 1, j);
    m := 1 + j;
  }

  lemma FewerCycles(t: Agents, t': Agents)
    requires forall b :: Live(t', b) ==> Live(t, b)
    requires forall b :: Up(t', b).Some? ==> Up(t, b) == Up(t', b)
    ensures forall a, n :: CycleOf(t', a, n) ==> CycleOf(t, a, n)
  {
    forall a, n | CycleOf(t', a, n) ensures CycleOf(t, a, n) {
      FewerWalks(t, t', a, n);
    }
  }

  /** Nobody reports to a new agent yet. */
  lemma {:induction false} CreateAddsNoWalks(t: Agents, id: Id, parent: Option<Id>, a: Id, n: nat)
    requires Referenced(t) && id !in t && (parent.Some? ==> Live(t, parent.value)) && a != id
    ensures Walk(t[id := Agent(parent, false)], a, n) == Walk(t, a, n) != Some(id)
  {
    if n > 0 { CreateAddsNoWalks(t, id, parent, a, n - 1); }
  }

  lemma CreateAddsNoCycle(t: Agents, id: Id, parent: Option<Id>, a: Id, n: nat)
    requires Referenced(t) && id !in t && (parent.Some? ==> Live(t, parent.value))
    requires CycleOf(t[id := Agent(parent, false)], a, n)
    ensures CycleOf(t, a, n)
  {
    var t' := t[id := Agent(parent, false)];
    assert forall b :: Up(t', b) != Some(id);
    if a != id { CreateAddsNoWalks(t, id, parent, a, n); }
  }

  lemma {:induction false} NoneStays(t: Agents, a: Id, m: nat, n: nat)
    requires m <= n && Walk(t, a, m).None?
    ensures Walk(t, a, n).None?
    decreases n - m
  {
    if m < n { NoneStays(t, a, m + 1, n); }
  }

  // ------------------------------------------------------------- over all runs

  lemma ReparentKeepsInv(t: Agents, id: Id, to: Id)
    requires Inv(t) && Live(t, id) && Live(t, to) && to != id && !Descends(t, to, id)
    ensures Inv(t[id := t[id].(parent := Some(to))])
  {
    var t' := t[id := t[id].(parent := Some(to))];
    forall a, n: nat | n <= MAX_DEPTH + 1 ensures !CycleOf(t', a, n) {
      if CycleOf(t', a, n) {
        var k := NewCycleNeedsPath(t, t', id, to, a, n);
      }
    }
  }

  lemma NextKeepsInv(t: Agents, step: Step)
    requires Inv(t)
    ensures Inv(Next(t, step))
  {
    match step
    case Create(id, parent) =>
      if Next(t, step) != t {
        forall a, n | CycleOf(Next(t, step), a, n) ensures CycleOf(t, a, n) { CreateAddsNoCycle(t, id, parent, a, n); }
      }
    case Update(id, change) =>
      if Next(t, step) != t {
        match change
        case Report(to) => ReparentKeepsInv(t, id, to);
        case _ => FewerCycles(t, Next(t, step));
      }
    case SoftDelete(id) => FewerCycles(t, Next(t, step));
  }

  /** Whatever was created, re-parented and deleted, no cycle of 51 live agents or fewer ever exists. */
  lemma {:induction false} RunHasNoShortCycle(t: Agents, steps: seq<Step>)
    requires Inv(t)
    ensures Inv(Run(t, steps))
    decreases |steps|
  {
    if steps != [] {
      NextKeepsInv(t, steps[0]);
      RunHasNoShortCycle(Next(t, steps[0]), steps[1..]);
    }
  }

  /** A forest stays one exactly when the new parent is not below the agent by more than the fifty steps looked at. */
  lemma UpdateKeepsForestIff(t: Agents, id: Id, to: Id)
    requires Forest(t) && Live(t, id)
    ensures Forest(Next(t, Update(id, Report(to)))) <==>
      Updated(t, id, Report(to)).Err? || forall k :: k > MAX_DEPTH ==> Walk(t, to, k) != Some(id)
  {
    var t' := Next(t, Update(id, Report(to)));
    if Updated(t, id, Report(to)).Ok? {
      assert Reparented(t, t', id, to);
      if k :| k > MAX_DEPTH && Walk(t, to, k) == Some(id) {
        var m := PathMakesCycle(t, t', id, to, k);
      } else {
        forall a, n ensures !CycleOf(t', a, n) {
          if CycleOf(t', a, n) {
            var k := NewCycleNeedsPath(t, t', id, to, a, n);
          }
        }
      }
    }
  }

  /** No ancestor chain is longer than fifty. */
  ghost predicate Shallow(t: Agents) {
    forall a :: a in t ==> Walk(t, a, MAX_DEPTH + 1).None?
  }

  ghost predicate ShallowRun(t: Agents, steps: seq<Step>)
    decreases |steps|
  {
    Shallow(t) && (steps != [] ==> ShallowRun(Next(t, steps[0]), steps[1..]))
  }

  lemma NextKeepsForest(t: Agents, step: Step)
    requires Referenced(t) && Forest(t) && Shallow(t)
    ensures Referenced(Next(t, step)) && Forest(Next(t, step))
  {
    match step
    case Create(id, parent) =>
      if Next(t, step) != t {
        forall a, n | CycleOf(Next(t, step), a, n) ensures false { CreateAddsNoCycle(t, id, parent, a, n); }
      }
    case Update(id, change) =>
      if Next(t, step) != t {
        match change
        case Report(to) =>
          forall k | k > MAX_DEPTH ensures Walk(t, to, k) != Some(id) { NoneStays(t, to, MAX_DEPTH + 1, k); }
          UpdateKeepsForestIff(t, id, to);
        case _ => FewerCycles(t, Next(t, step));
      }
    case SoftDelete(id) => FewerCycles(t, Next(t, step));
  }

  /** The step after a run whose tables stayed shallow: one may close the chain, none makes a cycle. */
  lemma {:induction false} ShallowRunStaysForest(t: Agents, steps: seq<Step>, last: Step)
    requires Referenced(t) && Forest(t) && ShallowRun(t, steps)
    ensures Forest(Next(Run(t, steps), last))
    decreases |steps|
  {
    if steps == [] {
      NextKeepsForest(t, last);
    } else {
      NextKeepsForest(t, steps[0]);
      ShallowRunStaysForest(Next(t, steps[0]), steps[1..], last);
    }
  }

  // ------------------------------------------------------- a cycle of 52 agents

  /** Agents 0 to n-1, each reporting to the one before. */
  function Chain(n: nat): Agents {
    if n == 0 then map[] else Chain(n - 1)[n - 1 := Agent(if n == 1 then None else Some(n - 2), false)]
  }

  lemma ChainHas(n: nat, a: Id)
    ensures a in Chain(n) <==> a < n
    ensures a < n ==> Chain(n)[a] == Agent(if a == 0 then None else Some(a - 1), false)
  {
  }

  function ChainSteps(n: nat): seq<Step> {
    if n == 0 then [] else ChainSteps(n - 1) + [Create(n - 1, if n == 1 then None else Some(n - 2))]
  }

  lemma {:induction false} RunThenStep(t: Agents, steps: seq<Step>, last: Step)
    ensures Run(t, steps + [last]) == Next(Run(t, steps), last)
    decreases |steps|
  {
    if steps == [] {
      assert Run(Next(t, last), []) == Next(t, last) && ([last])[1..] == [];
    } else {
      assert (steps + [last])[1..] == steps[1..] + [last];
      RunThenStep(Next(t, steps[0]), steps[1..], last);
    }
  }

  lemma {:induction false} ChainIsCreated(n: nat)
    ensures Run(map[], ChainSteps(n)) == Chain(n)
  {
    if n > 0 {
      ChainIsCreated(n - 1);
      RunThenStep(map[], ChainSteps(n - 1), Create(n - 1, if n == 1 then None else Some(n - 2)));
      ChainHas(n - 1, n - 1);
      if n > 1 { ChainHas(n - 1, n - 2); }
    }
  }

  lemma {:induction false} ChainWalk(n: nat, a: Id, k: nat)
    requires a < n
    ensures Walk(Chain(n), a, k) == if k <= a then Some(a - k) else None
  {
    ChainHas(n, a);
    if 0 < k <= a + 1 {
      ChainHas(n, a - (k - 1));
      if k <= a { ChainHas(n, a - k); }
    }
    if k > 0 { ChainWalk(n, a, k - 1); }
  }

  lemma LastIsFarBelowFirst()
    ensures var t := Chain(52); Live(t, 0) && Live(t, 51) && !Descends(t, 51, 0) && Walk(t, 51, 51) == Some(0)
  {
    var t := Chain(52);
    ChainHas(52, 0);
    ChainHas(52, 51);
    forall k | 1 <= k <= MAX_DEPTH ensures Walk(t, 51, k) != Some(0) { ChainWalk(52, 51, k); }
    ChainWalk(52, 51, 51);
  }

  lemma CycleClosed(t: Agents, steps: seq<Step>, id: Id, to: Id, k: nat) returns (n: nat)
    requires t == Run(map[], steps) && Live(t, id) && Live(t, to) && id != to
    requires !Descends(t, to, id) && Walk(t, to, k) == Some(id)
    ensures CycleOf(Run(map[], steps + [Update(id, Report(to))]), id, n)
  {
    RunThenStep(map[], steps, Update(id, Report(to)));
    n := PathMakesCycle(t, Next(t, Update(id, Report(to))), id, to, k);
  }

  /** 52 agents in a row: the check stops one short, and the first may report to the last. */
  lemma CycleCanBeMade() returns (steps: seq<Step>, n: nat)
    ensures CycleOf(Run(map[], steps), 0, n)
  {
    ChainIsCreated(52);
    LastIsFarBelowFirst();
    n := CycleClosed(Chain(52), ChainSteps(52), 0, 51, 51);
    steps := ChainSteps(52) + [Update(0, Report(51))];
  }

  // ----------------------------------------------------------------- service

  class AgentsService {
    var agents: Agents

    constructor ()
      ensures agents == map[]
    {
      agents := map[];
    }

    method Create(id: Id, parent: Option<Id>) returns (r: Result<Id, Error>)
      requires id !in agents
      modifies this
      ensures r.Ok? <==> Created(old(agents), id, parent).Ok?
      ensures agents == Next(old(agents), Step.Create(id, parent))
      ensures if parent.Some? && !Live(old(agents), parent.value) then r == Err(ParentNotFound) && agents == old(agents)
              else r == Ok(id) && agents == old(agents)[id := Agent(parent, false)]
    {
      if parent.Some? && !Live(agents, parent.value) { return Err(ParentNotFound); }
      agents := agents[id := Agent(parent, false)];
      return Ok(id);
    }

    method Update(id: Id, change: Change) returns (r: Result<Id, Error>)
      modifies this
      ensures r == (match Updated(old(agents), id, change) case Ok(_) => Ok(id) case Err(e) => Err(e))
      ensures agents == Next(old(agents), Step.Update(id, change))
      ensures r == Err(NotFound) <==> !Live(old(agents), id)
      ensures r.Ok? && change.Report? <==>
        && Live(old(agents), id) && change.Report? && change.to != id && Live(old(agents), change.to)
        && !IsAboveWithin(old(agents), id, change.to, 50)
      ensures r.Ok? ==>
        && r.value == id && id in old(agents)
        && agents == match change
                     case Keep => old(agents)
                     case Clear => old(agents)[id := old(agents)[id].(parent := None)]
                     case Report(to) => old(agents)[id := old(agents)[id].(parent := Some(to))]
      ensures r.Err? ==> agents == old(agents)
    {
      if !Live(agents, id) { return Err(NotFound); }
      if change.Report? {
        if change.to == id { return Err(SelfParent); }
        if !Live(agents, change.to) { return Err(ParentNotFound); }
        var wouldCycle := IsDescendantOf(change.to, id);
        if wouldCycle { return Err(WouldCycle); }
        agents := agents[id := agents[id].(parent := Some(change.to))];
      } else if change.Clear? {
        agents := agents[id := agents[id].(parent := None)];
      }
      return Ok(id);
    }

    /** Follows at most fifty parents; stops early at a missing parent or when it comes round again. */
    method IsDescendantOf(candidate: Id, ancestor: Id) returns (r: bool)
      requires Live(agents, candidate) && Live(agents, ancestor)
      ensures r <==> Descends(agents, candidate, ancestor)
    {
      var cursor := candidate;
      var visited: set<Id> := {};
      var depth := 0;
      while depth < MAX_DEPTH
        invariant depth <= MAX_DEPTH
        invariant Walk(agents, candidate, depth) == (if Live(agents, cursor) then Some(cursor) else None)
        invariant forall k :: 1 <= k <= depth ==> Walk(agents, candidate, k) != Some(ancestor)
        invariant forall v :: v in visited ==> Live(agents, v) && agents[v].parent.Some?
        invariant Live(agents, cursor) ==> forall v :: v in visited ==> StaysIn(agents, visited + {cursor}, ancestor, v)
      {
        if cursor in visited {
          assert visited + {cursor} == visited;
          forall k | depth < k <= MAX_DEPTH ensures Walk(agents, candidate, k) != Some(ancestor) {
            WalkAdds(agents, candidate, cursor, depth, k - depth);
            StaysAmong(agents, visited, cursor, ancestor, k - depth);
          }
          return false;
        }
        visited := visited + {cursor};
        if !Live(agents, cursor) || agents[cursor].parent.None? {
          forall k | depth < k <= MAX_DEPTH ensures Walk(agents, candidate, k).None? {
            NoneStays(agents, candidate, depth + 1, k);
          }
          return false;
        }
        var parent := agents[cursor].parent.value;
        if parent == ancestor {
          assert Walk(agents, candidate, depth + 1) == Some(ancestor);
          return true;
        }
        cursor := parent;
        depth := depth + 1;
      }
      return false;
    }

    method SoftDelete(id: Id) returns (found: bool)
      modifies this
      ensures found <==> Live(old(agents), id)
      ensures agents == Next(old(agents), Step.SoftDelete(id))
      ensures agents == if found then old(agents)[id := old(agents)[id].(deleted := true)] else old(agents)
    {
      if !Live(agents, id) { return false; }
      agents := agents[id := agents[id].(deleted := true)];
      return true;
    }
  }

  predicate StaysIn(t: Agents, visited: set<Id>, ancestor: Id, v: Id) {
    Up(t, v).Some? && Up(t, v).value in visited && Up(t, v).value != ancestor
  }

  /** Once a walk only meets agents it has met, it never meets the ancestor. */
  lemma {:induction false} StaysAmong(t: Agents, visited: set<Id>, a: Id, ancestor: Id, k: nat)
    requires a in visited
    requires forall v :: v in visited ==> StaysIn(t, visited, ancestor, v)
    ensures Walk(t, a, k).Some? && Walk(t, a, k).value in visited
    ensures k > 0 ==> Walk(t, a, k) != Some(ancestor)
  {
    if k > 0 { StaysAmong(t, visited, a, ancestor, k - 1); }
  }
}

/**
 * The executor: which rules of an event run, what a run of actions logs and how it
 * ends. Evaluator, membership check, rate limit, lock and handlers answer from outside.
 */
module AutomationExecutor {
  import opened Common

  type Id = nat

  const MAX_CASCADE_DEPTH: nat := 4

  datatype RunStatus = Success | Failed | Partial | Skipped

  datatype Action = Action(kind: Id, continueOnError: Option<bool>)

  /** What a handler does: report success, report failure, or throw. */
  datatype HandlerResult = Succeeds | Reports | Throws

  datatype LogEntry = LogEntry(index: nat, kind: Id, failed: bool)

  /** Registered action kinds with their continue-on-error default. */
  type Registry = map<Id, bool>

  // ------------------------------------------------------------ one rule's run

  predicate FailsAt(actions: seq<Action>, registry: Registry, handler: nat -> HandlerResult, i: nat)
    requires i < |actions|
  {
    actions[i].kind !in registry || !handler(i).Succeeds?
  }

  /** Whether a failure of this action lets the run go on. */
  predicate GoesOn(a: Action, registry: Registry) {
    if a.continueOnError.Some? then a.continueOnError.value
    else a.kind in registry && registry[a.kind]
  }

  predicate StopsAt(actions: seq<Action>, registry: Registry, handler: nat -> HandlerResult, i: nat)
    requires i < |actions|
  {
    FailsAt(actions, registry, handler, i) && !GoesOn(actions[i], registry)
  }

  /** A failure is an unknown type or a handler that did not succeed; it stops the run unless going on is asked for. */
  lemma StopsIff(actions: seq<Action>, registry: Registry, handler: nat -> HandlerResult, i: nat)
    requires i < |actions|
    ensures var a := actions[i];
      && (FailsAt(actions, registry, handler, i) <==> a.kind !in registry || handler(i) != Succeeds)
      && (StopsAt(actions, registry, handler, i) <==>
            && (a.kind !in registry || handler(i) != Succeeds)
            && match a.continueOnError
               case Some(goesOn) => !goesOn
               case None => a.kind !in registry || !registry[a.kind])
  {
  }

  /**
   * The actions run in order up to the first failure that does not let the run go on;
   * there is one log entry for each, and the status tells which of the three ways it went.
   */
  method RunActions(actions: seq<Action>, registry: Registry, handler: nat -> HandlerResult)
    returns (log: seq<LogEntry>, status: RunStatus)
    ensures |log| <= |actions|
    ensures forall i :: 0 <= i < |log| ==>
      log[i] == LogEntry(i, actions[i].kind, FailsAt(actions, registry, handler, i))
    ensures forall i :: 0 <= i < |log| && StopsAt(actions, registry, handler, i) ==> i == |log| - 1
    ensures |log| < |actions| ==> log != [] && StopsAt(actions, registry, handler, |log| - 1)
    ensures status == Success <==> forall i :: 0 <= i < |actions| ==> !FailsAt(actions, registry, handler, i)
    ensures status == Failed <==> exists i :: 0 <= i < |actions| && StopsAt(actions, registry, handler, i)
    ensures status != Skipped
  {
    log := [];
    var anyFailure, aborted := false, false;
    var i := 0;
    while i < |actions| && !aborted
      invariant i <= |actions| && |log| == i
      invariant forall j :: 0 <= j < i ==>
        log[j] == LogEntry(j, actions[j].kind, FailsAt(actions, registry, handler, j))
      invariant forall j :: 0 <= j < i && StopsAt(actions, registry, handler, j) ==> aborted && j == i - 1
      invariant aborted ==> i > 0 && StopsAt(actions, registry, handler, i - 1)
      invariant anyFailure <==> exists j :: 0 <= j < i && FailsAt(actions, registry, handler, j)
    {
      var action := actions[i];
      if action.kind !in registry {
        log := log + [LogEntry(i, action.kind, true)];
        anyFailure := true;
        aborted := !(if action.continueOnError.Some? then action.continueOnError.value else false);
      } else {
        var result := handler(i);
        if result.Succeeds? {
          log := log + [LogEntry(i, action.kind, false)];
        } else {
          anyFailure := true;
          log := log + [LogEntry(i, action.kind, true)];
          var continueOnError :=
            if action.continueOnError.Some? then action.continueOnError.value else registry[action.kind];
          if !continueOnError { aborted := true; }
        }
      }
      i := i + 1;
    }
    if !anyFailure { status := Success; }
    else if aborted { status := Failed; }
    else { status := Partial; }
  }

  // ---------------------------------------------------------- an event's rules

  /** What the world answers about one matching rule, in the order it is asked. */
  datatype Rule = Rule(id: Id, schemaCurrent: bool, matches: bool, actorMember: bool, withinRate: bool, lockFree: bool)

  datatype Reason = LoopDetected | SchemaMismatch | ActorUnauthorized | RateLimited

  datatype Verdict = Skips(reason: Reason) | Silent | LockedOut | Runs

  function Decide(r: Rule, visited: seq<Id>): Verdict {
    if r.id in visited then Skips(LoopDetected)
    else if !r.schemaCurrent then Skips(SchemaMismatch)
    else if !r.matches then Silent
    else if !r.actorMember then Skips(ActorUnauthorized)
    else if !r.withinRate then Skips(RateLimited)
    else if !r.lockFree then LockedOut
    else Runs
  }

  /** A run row: the rule, and why it was skipped or that its actions ran one hop deeper. */
  datatype RunRow = RunRow(rule: Id, skipped: Option<Reason>)

  /** Rows and pauses an event leaves behind when its rules are taken in order, up to a held lock. */
  function RowsOf(rules: seq<Rule>, visited: seq<Id>): seq<RunRow> {
    if rules == [] then []
    else
      match Decide(rules[0], visited)
      case LockedOut => []
      case Silent => RowsOf(rules[1..], visited)
      case Skips(reason) => [RunRow(rules[0].id, Some(reason))] + RowsOf(rules[1..], visited)
      case Runs => [RunRow(rules[0].id, None)] + RowsOf(rules[1..], visited)
  }

  predicate HitsLock(rules: seq<Rule>, visited: seq<Id>) {
    exists i :: 0 <= i < |rules| && Decide(rules[i], visited) == LockedOut
  }

  /**
   * Handles one event. It throws exactly when some rule finds the contact locked, and then
   * the rules before that one have already run: a retry runs them again.
   */
  method Execute(depth: nat, rules: seq<Rule>, visited: seq<Id>)
    returns (rows: seq<RunRow>, paused: set<Id>, threw: bool)
    ensures depth >= 4 ==> rows == [] && paused == {} && !threw
    ensures depth < 4 ==>
      && rows == RowsOf(rules, visited)
      && (threw <==> exists i :: 0 <= i < |rules| && FindsLock(rules[i], visited))
      && paused == set r | r in rows && r.skipped == Some(ActorUnauthorized) :: r.rule
  {
    rows, paused, threw := [], {}, false;
    if depth >= MAX_CASCADE_DEPTH { return; }
    var i := 0;
    while i < |rules|
      invariant i <= |rules|
      invariant RowsOf(rules, visited) == rows + RowsOf(rules[i..], visited)
      invariant forall j :: 0 <= j < i ==> Decide(rules[j], visited) != LockedOut
      invariant paused == set r | r in rows && r.skipped == Some(ActorUnauthorized) :: r.rule
    {
      var rule := rules[i];
      assert rules[i..][0] == rule && rules[i..][1..] == rules[i + 1..];
      i := i + 1;
      if rule.id in visited {
        rows := rows + [RunRow(rule.id, Some(LoopDetected))];
        continue;
      }
      if !rule.schemaCurrent {
        rows := rows + [RunRow(rule.id, Some(SchemaMismatch))];
        continue;
      }
      if !rule.matches { continue; }
      if !rule.actorMember {
        ghost var before := rows;
        rows := rows + [RunRow(rule.id, Some(ActorUnauthorized))];
        assert forall r :: r in rows <==> r in before || r == RunRow(rule.id, Some(ActorUnauthorized));
        paused := paused + {rule.id};
        continue;
      }
      if !rule.withinRate {
        rows := rows + [RunRow(rule.id, Some(RateLimited))];
        continue;
      }
      if !rule.lockFree {
        assert Decide(rules[i - 1], visited) == LockedOut;
        threw := true;
        return;
      }
      rows := rows + [RunRow(rule.id, None)];
    }
    assert rules[i..] == [];
  }

  /** No rule before the i-th finds the contact locked. */
  ghost predicate UnlockedBefore(rules: seq<Rule>, visited: seq<Id>, i: nat)
    requires i <= |rules|
  {
    forall j :: 0 <= j < i ==> Decide(rules[j], visited) != LockedOut
  }

  /** Rule `i` is reached and leaves this row. */
  ghost predicate Leaves(rules: seq<Rule>, visited: seq<Id>, i: nat, row: RunRow)
    requires i < |rules|
  {
    && UnlockedBefore(rules, visited, i) && row.rule == rules[i].id
    && Decide(rules[i], visited) == if row.skipped.Some? then Skips(row.skipped.value) else Runs
  }

  /** The rows are exactly those of the rules that run or are skipped with no locked-out rule before them. */
  lemma {:induction false} RowsAreThoseReached(rules: seq<Rule>, visited: seq<Id>, row: RunRow)
    ensures row in RowsOf(rules, visited) <==> exists i :: 0 <= i < |rules| && Leaves(rules, visited, i, row)
  {
    if rules != [] {
      var rest := rules[1..];
      RowsAreThoseReached(rest, visited, row);
      if i :| 0 <= i < |rest| && Leaves(rest, visited, i, row) {
        if Decide(rules[0], visited) != LockedOut {
          forall j | 0 <= j < i + 1 ensures Decide(rules[j], visited) != LockedOut {
            assert j > 0 ==> rules[j] == rest[j - 1];
          }
          assert Leaves(rules, visited, i + 1, row);
        }
      }
      if i :| 0 <= i < |rules| && Leaves(rules, visited, i, row) {
        if i > 0 {
          forall j | 0 <= j < i - 1 ensures Decide(rest[j], visited) != LockedOut {
            assert rest[j] == rules[j + 1];
          }
          assert rest[i - 1] == rules[i] && Leaves(rest, visited, i - 1, row);
        }
      }
      assert Decide(rules[0], visited).Runs? || Decide(rules[0], visited).Skips? ==>
        (row.rule == rules[0].id
         && Decide(rules[0], visited) == (if row.skipped.Some? then Skips(row.skipped.value) else Runs)
         ==> Leaves(rules, visited, 0, row));
    }
  }

  /** The contact's lock is asked for, after everything else allowed the rule, and is held. */
  predicate FindsLock(r: Rule, visited: seq<Id>) {
    r.id !in visited && r.schemaCurrent && r.matches && r.actorMember && r.withinRate && !r.lockFree
  }

  /** The conditions do not match, so nothing is noted. */
  predicate PassedOver(r: Rule, visited: seq<Id>) {
    r.id !in visited && r.schemaCurrent && !r.matches
  }

  /** What the row of a rule says about it: everything before the reason was in order, and the reason was not. */
  predicate Tells(r: Rule, visited: seq<Id>, row: RunRow) {
    && row.rule == r.id
    && match row.skipped
       case Some(LoopDetected) => r.id in visited
       case Some(SchemaMismatch) => r.id !in visited && !r.schemaCurrent
       case Some(ActorUnauthorized) => r.id !in visited && r.schemaCurrent && r.matches && !r.actorMember
       case Some(RateLimited) => r.id !in visited && r.schemaCurrent && r.matches && r.actorMember && !r.withinRate
       case None =>
         r.id !in visited && r.schemaCurrent && r.matches && r.actorMember && r.withinRate && r.lockFree
  }

  /** Rule `i` is reached: no rule before it finds the contact locked. */
  ghost predicate IsReached(rules: seq<Rule>, visited: seq<Id>, i: nat)
    requires i <= |rules|
  {
    forall j :: 0 <= j < i ==> !FindsLock(rules[j], visited)
  }

  /** Row `k` is that of rule `at[k]`, in the order of the rules. */
  ghost predicate RowsFollow(rules: seq<Rule>, visited: seq<Id>, rows: seq<RunRow>, at: seq<nat>) {
    && |at| == |rows|
    && (forall k :: 0 <= k < |at| ==>
          at[k] < |rules| && IsReached(rules, visited, at[k]) && Tells(rules[at[k]], visited, rows[k]))
    && forall k, l :: 0 <= k < l < |at| ==> at[k] < at[l]
  }

  function Shifted(at: seq<nat>): seq<nat> {
    seq(|at|, k requires 0 <= k < |at| => at[k] + 1)
  }

  lemma ReachedLater(rules: seq<Rule>, visited: seq<Id>, i: nat)
    requires rules != [] && i < |rules|
    ensures IsReached(rules, visited, i + 1) <==>
      !FindsLock(rules[0], visited) && IsReached(rules[1..], visited, i)
  {
    assert forall j :: 1 <= j < |rules| ==> rules[j] == rules[1..][j - 1];
    if !FindsLock(rules[0], visited) && IsReached(rules[1..], visited, i) {
      forall j | 0 <= j < i + 1 ensures !FindsLock(rules[j], visited) {
        if j > 0 { assert !FindsLock(rules[1..][j - 1], visited); }
      }
    }
  }

  lemma RowsFollowLater(rules: seq<Rule>, visited: seq<Id>, rows: seq<RunRow>, at: seq<nat>)
    requires rules != [] && !FindsLock(rules[0], visited) && RowsFollow(rules[1..], visited, rows, at)
    ensures RowsFollow(rules, visited, rows, Shifted(at))
  {
    forall k | 0 <= k < |at| ensures IsReached(rules, visited, at[k] + 1) {
      ReachedLater(rules, visited, at[k]);
    }
  }

  lemma FirstRowFollows(rules: seq<Rule>, visited: seq<Id>, row: RunRow, rows: seq<RunRow>, at: seq<nat>)
    requires rules != [] && Tells(rules[0], visited, row) && RowsFollow(rules, visited, rows, at)
    requires forall k :: 0 <= k < |at| ==> at[k] > 0
    ensures RowsFollow(rules, visited, [row] + rows, [0] + at)
  {
  }

  ghost predicate HasRow(rules: seq<Rule>, visited: seq<Id>, i: nat)
    requires i < |rules|
  {
    IsReached(rules, visited, i) && !FindsLock(rules[i], visited) && !PassedOver(rules[i], visited)
  }

  /** The rules whose rows there are: all that are reached and neither passed over nor locked out. */
  ghost predicate AllTold(rules: seq<Rule>, visited: seq<Id>, at: seq<nat>) {
    forall i :: 0 <= i < |rules| && HasRow(rules, visited, i) ==> i in at
  }

  lemma AllToldLater(rules: seq<Rule>, visited: seq<Id>, at: seq<nat>)
    requires rules != [] && !FindsLock(rules[0], visited) && AllTold(rules[1..], visited, at)
    ensures AllTold(rules, visited, [0] + Shifted(at))
    ensures PassedOver(rules[0], visited) ==> AllTold(rules, visited, Shifted(at))
  {
    forall i | 0 < i < |rules| && HasRow(rules, visited, i)
      ensures i in Shifted(at)
    {
      ReachedLater(rules, visited, i - 1);
      assert rules[i] == rules[1..][i - 1] && i - 1 in at;
      var k :| 0 <= k < |at| && at[k] == i - 1;
      assert Shifted(at)[k] == i;
    }
  }

  /** The rows of an event are one for each rule that is reached and has something to tell, in order. */
  lemma {:induction false} RowsTellInOrder(rules: seq<Rule>, visited: seq<Id>) returns (at: seq<nat>)
    ensures RowsFollow(rules, visited, RowsOf(rules, visited), at) && AllTold(rules, visited, at)
    ensures HitsLock(rules, visited) <==> exists i :: 0 <= i < |rules| && FindsLock(rules[i], visited)
  {
    at := [];
    forall i | 0 <= i < |rules| ensures FindsLock(rules[i], visited) <==> Decide(rules[i], visited) == LockedOut {
    }
    if rules != [] && !FindsLock(rules[0], visited) {
      var later := RowsTellInOrder(rules[1..], visited);
      var rows := RowsOf(rules[1..], visited);
      RowsFollowLater(rules, visited, rows, later);
      AllToldLater(rules, visited, later);
      at := if PassedOver(rules[0], visited) then Shifted(later) else [0] + Shifted(later);
      if !PassedOver(rules[0], visited) {
        var row := RowsOf(rules, visited)[0];
        assert RowsOf(rules, visited) == [row] + rows;
        FirstRowFollows(rules, visited, row, rows, Shifted(later));
      }
    }
  }

  /** Some rule runs before any rule finds the contact locked. */
  ghost predicate RunsFirst(rules: seq<Rule>, visited: seq<Id>) {
    exists i :: 0 <= i < |rules| && Decide(rules[i], visited) == Runs && UnlockedBefore(rules, visited, i)
  }

  /** Rule `i` runs, no rule before it finds the contact locked and one after it does. */
  ghost predicate RunsThenLocked(rules: seq<Rule>, visited: seq<Id>, i: nat)
    requires i < |rules|
  {
    && Decide(rules[i], visited) == Runs && UnlockedBefore(rules, visited, i)
    && exists j :: i < j < |rules| && Decide(rules[j], visited) == LockedOut
  }

  /**
   * A rule has run exactly when some rule runs before any finds the contact locked; the call
   * throws although a rule has run exactly when, besides, a later rule finds it locked.
   */
  lemma ThrowsAfterRunningIff(rules: seq<Rule>, visited: seq<Id>)
    ensures (exists row :: row in RowsOf(rules, visited) && row.skipped.None?) <==> RunsFirst(rules, visited)
    ensures HitsLock(rules, visited) && (exists row :: row in RowsOf(rules, visited) && row.skipped.None?) <==>
      exists i :: 0 <= i < |rules| && RunsThenLocked(rules, visited, i)
  {
    if row :| row in RowsOf(rules, visited) && row.skipped.None? {
      RowsAreThoseReached(rules, visited, row);
      var i :| 0 <= i < |rules| && Leaves(rules, visited, i, row);
      assert Decide(rules[i], visited) == Runs && UnlockedBefore(rules, visited, i);
      assert HitsLock(rules, visited) ==> RunsThenLocked(rules, visited, i);
    }
    if i :| 0 <= i < |rules| && Decide(rules[i], visited) == Runs && UnlockedBefore(rules, visited, i) {
      var row := RunRow(rules[i].id, None);
      assert Leaves(rules, visited, i, row);
      RowsAreThoseReached(rules, visited, row);
    }
  }

  /** Two rules, the second one locked out: the first has run although the call throws. */
  lemma ThrowsAfterRunning(a: Id, b: Id)
    requires a != b
    ensures var rules := [Rule(a, true, true, true, true, true), Rule(b, true, true, true, true, false)];
      HitsLock(rules, []) && RowsOf(rules, []) == [RunRow(a, None)]
  {
    var rules := [Rule(a, true, true, true, true, true), Rule(b, true, true, true, true, false)];
    assert Decide(rules[1], []) == LockedOut;
    assert RowsOf(rules[1..], []) == [];
  }
}

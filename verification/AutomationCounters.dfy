/**
 * Counters and auto-pause of one automation rule. Finishing a run and pausing the
 * rule are separate writes; other runs, user toggles and crashes come in between.
 */
module AutomationCounters {
  import opened AutomationExecutor

  const AUTO_DISABLE_AFTER_FAILURES := 5

  datatype Rule = Rule(
    enabled: bool,
    deleted: bool,
    runCount: int,
    successCount: int,
    failureCount: int,
    consecutiveFailures: int,
    autoPaused: bool
  )

  /** What happened to the rule so far, oldest first. */
  datatype Past = Ran(status: RunStatus) | Reenabled

  /** `pending` auto-pause writes are still to come; `crashed`: one was lost since the failure count was last reset. */
  datatype System = System(rule: Rule, past: seq<Past>, pending: nat, crashed: bool)

  datatype Step =
    | Finishes(status: RunStatus)
    | ActorGone
    | PauseLands
    | PauseLost
    | Toggles(enabled: bool)
    | Removes

  function Counted(r: Rule, status: RunStatus): Rule {
    match status
    case Success => r.(runCount := r.runCount + 1, successCount := r.successCount + 1, consecutiveFailures := 0)
    case Skipped => r.(runCount := r.runCount + 1)
    case _ => r.(runCount := r.runCount + 1, failureCount := r.failureCount + 1,
                 consecutiveFailures := r.consecutiveFailures + 1)
  }

  predicate Fails(status: RunStatus) {
    status == Failed || status == Partial
  }

  function Toggled(r: Rule, enabled: bool): Rule {
    if enabled then r.(enabled := true, consecutiveFailures := 0, autoPaused := false) else r.(enabled := false)
  }

  function Next(s: System, step: Step): System {
    match step
    case Finishes(status) =>
      var r := Counted(s.rule, status);
      s.(rule := r, past := s.past + [Ran(status)],
         pending := s.pending + if Fails(status) && r.consecutiveFailures >= AUTO_DISABLE_AFTER_FAILURES then 1 else 0,
         crashed := s.crashed && status != Success)
    case ActorGone => s.(pending := s.pending + 1)
    case PauseLands =>
      if s.pending == 0 then s
      else s.(rule := s.rule.(enabled := false, autoPaused := true), pending := s.pending - 1)
    case PauseLost => if s.pending == 0 then s else s.(pending := s.pending - 1, crashed := true)
    case Toggles(enabled) =>
      if s.rule.deleted then s
      else s.(rule := Toggled(s.rule, enabled),
              past := if enabled then s.past + [Reenabled] else s.past,
              crashed := s.crashed && !enabled)
    case Removes =>
      if s.rule.deleted then s else s.(rule := s.rule.(deleted := true, enabled := false))
  }

  function Run(s: System, steps: seq<Step>): System
    decreases |steps|
  {
    if steps == [] then s else Run(Next(s, steps[0]), steps[1..])
  }

  /** How many of the runs so far ended with this status. */
  function CountRuns(past: seq<Past>, status: RunStatus): nat {
    if past == [] then 0
    else CountRuns(past[..|past| - 1], status) + if past[|past| - 1] == Ran(status) then 1 else 0
  }

  /** Failed or partial runs since the last success or re-enabling; skipped runs do not break the row. */
  function FailureRow(past: seq<Past>): nat {
    if past == [] then 0
    else
      var last := past[|past| - 1];
      if last.Reenabled? || last.status == Success then 0
      else FailureRow(past[..|past| - 1]) + if Fails(last.status) then 1 else 0
  }

  ghost predicate Inv(s: System) {
    && s.rule.successCount == CountRuns(s.past, Success)
    && s.rule.failureCount == CountRuns(s.past, Failed) + CountRuns(s.past, Partial)
    && s.rule.runCount == s.rule.successCount + s.rule.failureCount + CountRuns(s.past, Skipped)
    && s.rule.consecutiveFailures == FailureRow(s.past)
    && (s.rule.enabled && s.rule.consecutiveFailures >= AUTO_DISABLE_AFTER_FAILURES ==> s.pending > 0 || s.crashed)
    && (s.rule.deleted ==> !s.rule.enabled)
  }

  lemma PastGrows(past: seq<Past>, e: Past)
    ensures forall x: RunStatus :: CountRuns(past + [e], x) == CountRuns(past, x) + if e == Ran(x) then 1 else 0
    ensures FailureRow(past + [e]) ==
      if e.Reenabled? || e.status == Success then 0 else FailureRow(past) + if Fails(e.status) then 1 else 0
  {
    assert (past + [e])[..|past|] == past;
  }

  lemma FinishKeepsInv(s: System, status: RunStatus)
    requires Inv(s)
    ensures Inv(Next(s, Finishes(status)))
  {
    PastGrows(s.past, Ran(status));
    match status
    case Success =>
    case Failed =>
    case Partial =>
    case Skipped =>
  }

  lemma ToggleKeepsInv(s: System, enabled: bool)
    requires Inv(s)
    ensures Inv(Next(s, Toggles(enabled)))
  {
    PastGrows(s.past, Reenabled);
  }

  lemma NextKeepsInv(s: System, step: Step)
    requires Inv(s)
    ensures Inv(Next(s, step))
  {
    match step
    case Finishes(status) => FinishKeepsInv(s, status);
    case Toggles(enabled) => ToggleKeepsInv(s, enabled);
    case ActorGone =>
    case PauseLands =>
    case PauseLost =>
    case Removes =>
  }

  lemma {:induction false} RunKeepsInv(s: System, steps: seq<Step>)
    requires Inv(s)
    ensures Inv(Run(s, steps))
    decreases |steps|
  {
    if steps != [] {
      NextKeepsInv(s, steps[0]);
      RunKeepsInv(Next(s, steps[0]), steps[1..]);
    }
  }

  lemma {:induction false} NoSkips(s: System, steps: seq<Step>)
    requires CountRuns(s.past, Skipped) == 0
    requires forall x :: x in steps && x.Finishes? ==> x.status != Skipped
    ensures CountRuns(Run(s, steps).past, Skipped) == 0
    decreases |steps|
  {
    if steps != [] {
      assert steps[0] in steps && forall x :: x in steps[1..] ==> x in steps;
      if Next(s, steps[0]).past != s.past {
        PastGrows(s.past, if steps[0].Finishes? then Ran(steps[0].status) else Reenabled);
      }
      NoSkips(Next(s, steps[0]), steps[1..]);
    }
  }

  /**
   * Over every interleaving of finished runs, auto-pause writes, toggles and removal, for a rule
   * that starts fresh: the run count splits into successes and failures, the consecutive counter is
   * the current row of failures, and an enabled rule that has failed 5 times in a row has an
   * auto-pause write still to come, or lost one to a crash.
   */
  lemma CountersAgree(rule: Rule, steps: seq<Step>)
    requires rule.runCount == rule.successCount == rule.failureCount == rule.consecutiveFailures == 0 && !rule.deleted
    requires forall x :: x in steps && x.Finishes? ==> x.status != Skipped
    ensures var s := Run(System(rule, [], 0, false), steps);
      && s.rule.runCount == s.rule.successCount + s.rule.failureCount
      && s.rule.consecutiveFailures == FailureRow(s.past)
      && (s.rule.enabled && s.pending == 0 && !s.crashed ==> FailureRow(s.past) < AUTO_DISABLE_AFTER_FAILURES)
      && (s.rule.deleted ==> !s.rule.enabled)
  {
    RunKeepsInv(System(rule, [], 0, false), steps);
    NoSkips(System(rule, [], 0, false), steps);
  }

  // -------------------------------------------------------- when a rule is paused

  /** Nothing has paused the rule, or is about to, and it is not at its fifth failure in a row. */
  ghost predicate Unpaused(s: System) {
    s.rule.enabled && !s.rule.autoPaused && s.pending == 0 && s.rule.consecutiveFailures < 5
  }

  /** The rule is never switched off or removed, its author never gone, its fifth failure in a row never reached. */
  ghost predicate NeverFive(s: System, steps: seq<Step>)
    decreases |steps|
  {
    steps != [] ==>
      && !steps[0].ActorGone? && !steps[0].Removes? && steps[0] != Toggles(false)
      && FailureRow(Next(s, steps[0]).past) < 5
      && NeverFive(Next(s, steps[0]), steps[1..])
  }

  lemma FinishKeepsUnpaused(s: System, status: RunStatus)
    requires Unpaused(s) && Next(s, Finishes(status)).rule.consecutiveFailures < 5
    ensures Unpaused(Next(s, Finishes(status)))
  {
    match status
    case Success =>
    case Failed =>
    case Partial =>
    case Skipped =>
  }

  lemma NextKeepsUnpaused(s: System, step: Step)
    requires Unpaused(s) && !step.ActorGone? && !step.Removes? && step != Toggles(false)
    requires Next(s, step).rule.consecutiveFailures < 5
    ensures Unpaused(Next(s, step))
  {
    match step
    case Finishes(status) => FinishKeepsUnpaused(s, status);
    case Toggles(_) =>
    case PauseLands =>
    case PauseLost =>
  }

  /** A rule that is neither switched off nor fails five times in a row is not paused, whatever else happens. */
  lemma {:induction false} OnlyFiveFailuresPause(s: System, steps: seq<Step>)
    requires Inv(s) && Unpaused(s) && NeverFive(s, steps)
    ensures Unpaused(Run(s, steps))
    decreases |steps|
  {
    if steps != [] {
      NextKeepsInv(s, steps[0]);
      NextKeepsUnpaused(s, steps[0]);
      OnlyFiveFailuresPause(Next(s, steps[0]), steps[1..]);
    }
  }

  /** The counters split into successes and failures exactly when no skipped run was counted. */
  lemma SplitIffNoSkips(s: System)
    requires Inv(s)
    ensures s.rule.runCount == s.rule.successCount + s.rule.failureCount <==>
      CountRuns(s.past, Skipped) == 0
  {
  }

  /** A crash between the failing run and its pause leaves the rule on; its next failure asks for the pause again. */
  lemma LostPauseIsRetried(s: System, status: RunStatus)
    requires Inv(s) && s.rule.enabled && s.rule.consecutiveFailures >= AUTO_DISABLE_AFTER_FAILURES && Fails(status)
    ensures var v := Run(s, [PauseLost, Finishes(status), PauseLands]);
      !v.rule.enabled && v.rule.autoPaused
  {
    var a, b, c := PauseLost, Finishes(status), PauseLands;
    assert [a, b, c][1..] == [b, c] && [b, c][1..] == [c];
    var s1 := Next(s, a);
    var s2 := Next(s1, b);
    assert Run(s1, [b, c]) == Run(s2, [c]) && Run(s2, [c]) == Run(Next(s2, c), []);
  }

  // ------------------------------------------------------------------ service

  class AutomationRow {
    var rule: Rule
    ghost var past: seq<Past>
    ghost var pending: nat
    ghost var crashed: bool

    constructor (rule: Rule)
      ensures State() == System(rule, [], 0, false)
    {
      this.rule, past, pending, crashed := rule, [], 0, false;
    }

    ghost function State(): System
      reads this
    {
      System(rule, past, pending, crashed)
    }

    /** Counts a finished run and, at the fifth failure in a row, pauses the rule. */
    method UpdateAutomationCounters(status: RunStatus)
      modifies this
      ensures State() == Run(old(State()),
        if Fails(status) && old(rule).consecutiveFailures + 1 >= AUTO_DISABLE_AFTER_FAILURES
        then [Finishes(status), PauseLands] else [Finishes(status)])
      ensures rule.runCount == old(rule).runCount + 1 && rule.deleted == old(rule).deleted
      ensures rule.successCount == old(rule).successCount + if status == Success then 1 else 0
      ensures rule.failureCount == old(rule).failureCount + if status in {Failed, Partial} then 1 else 0
      ensures rule.consecutiveFailures ==
        if status == Success then 0
        else old(rule).consecutiveFailures + if status in {Failed, Partial} then 1 else 0
      ensures if status in {Failed, Partial} && rule.consecutiveFailures >= 5
              then !rule.enabled && rule.autoPaused
              else rule.enabled == old(rule).enabled && rule.autoPaused == old(rule).autoPaused
    {
      ghost var before := State();
      past, crashed := past + [Ran(status)], crashed && status != Success;
      if status == Success {
        rule := rule.(runCount := rule.runCount + 1, successCount := rule.successCount + 1, consecutiveFailures := 0);
      } else if status == Failed || status == Partial {
        rule := rule.(runCount := rule.runCount + 1, failureCount := rule.failureCount + 1,
                      consecutiveFailures := rule.consecutiveFailures + 1);
        if rule.consecutiveFailures >= AUTO_DISABLE_AFTER_FAILURES {
          pending := pending + 1;
          ghost var mid := State();
          assert mid == Next(before, Finishes(status));
          AutoPause();
          assert [Finishes(status), PauseLands][1..] == [PauseLands];
          assert Run(mid, [PauseLands]) == Run(State(), []);
          return;
        }
      } else {
        rule := rule.(runCount := rule.runCount + 1);
      }
      assert State() == Next(before, Finishes(status));
      assert Run(before, [Finishes(status)]) == Run(State(), []);
    }

    method AutoPause()
      requires pending > 0
      modifies this
      ensures State() == Next(old(State()), PauseLands)
    {
      rule := rule.(enabled := false, autoPaused := true);
      pending := pending - 1;
    }

    /** Re-enabling acknowledges an auto-pause and starts the failure count again. */
    method Toggle(enabled: bool) returns (found: bool)
      modifies this
      ensures found <==> !old(rule).deleted
      ensures State() == Next(old(State()), Toggles(enabled))
      ensures !found ==> rule == old(rule)
      ensures found && enabled ==>
        rule == old(rule).(enabled := true, consecutiveFailures := 0, autoPaused := false)
      ensures found && !enabled ==> rule == old(rule).(enabled := false)
    {
      if rule.deleted { return false; }
      rule := rule.(enabled := enabled);
      if enabled {
        rule := rule.(consecutiveFailures := 0, autoPaused := false);
        past, crashed := past + [Reenabled], false;
      }
      return true;
    }

    method Remove() returns (found: bool)
      modifies this
      ensures found <==> !old(rule).deleted
      ensures State() == Next(old(State()), Removes)
      ensures rule == if found then old(rule).(deleted := true, enabled := false) else old(rule)
    {
      if rule.deleted { return false; }
      rule := rule.(deleted := true, enabled := false);
      return true;
    }
  }
}

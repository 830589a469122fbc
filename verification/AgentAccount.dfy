/**
 * What a run's transcript and action have to do with what was executed: reading the
 * transcript from the end, every result is accounted for by the executions of its call.
 */
module AgentAccount {
  import opened Common
  import opened AgentRunner

  // ------------------------------------------------- the transcript by itself

  predicate ReplySucceeded(turn: Turn) {
    turn.ToolResult? && turn.name == ReplyToConversation
    && turn.result.Some? && turn.result.value.Returned? && turn.result.value.ok == Some(true)
  }

  predicate RepliedIn(messages: seq<Turn>) {
    exists i :: 0 <= i < |messages| && ReplySucceeded(messages[i])
  }

  /** Some tool of the kind has a result in the transcript. */
  predicate UsedIn(messages: seq<Turn>, tools: set<ToolName>) {
    exists i :: 0 <= i < |messages| && messages[i].ToolResult? && messages[i].name in tools
  }

  /** The calls of the assistant's turns, turn by turn. */
  function Questions(messages: seq<Turn>): seq<seq<Call>> {
    if messages == [] then []
    else
      var front, last := messages[..|messages| - 1], messages[|messages| - 1];
      if last.Assistant? then Questions(front) + [last.calls] else Questions(front)
  }

  /** The calls the model asked for in its first `n` answers, without those that ended its turn. */
  function Asked(llm: nat -> Response, n: nat): seq<seq<Call>> {
    if n == 0 then []
    else if llm(n - 1).Answer? && !llm(n - 1).stop && llm(n - 1).calls != []
    then Asked(llm, n - 1) + [llm(n - 1).calls]
    else Asked(llm, n - 1)
  }

  // --------------------------------------------------------------- accounting

  /** Worth a second try: it threw something temporary, or came back with a server error or 429. */
  predicate Temporary(o: Outcome) {
    match o
    case Threw(transient, _) => transient
    case Returned(_, status, _, _) => status.Some? && (status.value == 429 || status.value >= 500)
  }

  function ActionIn(o: Outcome): Option<FinalAction> {
    if o.Returned? then o.action else None
  }

  /** The action after a call reported `reported`: the first one stays. */
  predicate Reports(before: FinalAction, reported: Option<FinalAction>, after: FinalAction) {
    after == if before != NoAction || reported.None? then before else reported.value
  }

  /** The last execution is of this tool, for a call of the model. */
  predicate EndsWith(tried: seq<Try>, name: ToolName) {
    tried != [] && tried[|tried| - 1].name == name && !tried[|tried| - 1].fallback
  }

  /**
   * Transcript, executions and action, read from the end. A fallback leaves no message, is tried only
   * while there is no action, and gives the run the action it reports. A result carries nothing exactly
   * when it is of a reply and an earlier reply of the run had succeeded; otherwise it carries the outcome
   * of the last of its call's executions, which were two exactly if the first failed temporarily.
   */
  ghost predicate Accounts(messages: seq<Turn>, tried: seq<Try>, action: FinalAction)
    decreases |messages| + |tried|
  {
    if tried != [] && tried[|tried| - 1].fallback then
      var o := tried[|tried| - 1].outcome;
      Accounts(messages, tried[..|tried| - 1], NoAction) && Reports(NoAction, ActionIn(o), action)
    else if messages == [] then tried == [] && action == NoAction
    else
      var front, last := messages[..|messages| - 1], messages[|messages| - 1];
      if !last.ToolResult? then Accounts(front, tried, action)
      else if last.name == ReplyToConversation && RepliedIn(front) then
        last.result.None? && Accounts(front, tried, action)
      else last.result.Some? && (Once(front, last, tried, action) || Twice(front, last, tried, action))
  }

  ghost predicate Once(front: seq<Turn>, last: Turn, tried: seq<Try>, action: FinalAction)
    requires last.ToolResult? && last.result.Some?
    decreases |front| + |tried|, 0
  {
    && EndsWith(tried, last.name)
    && var o := tried[|tried| - 1].outcome;
    && !Temporary(o) && last.result == Some(o)
    && exists before :: Accounts(front, tried[..|tried| - 1], before) && Reports(before, ActionIn(o), action)
  }

  /** A second execution that throws leaves the action reported by the first in place. */
  ghost predicate Twice(front: seq<Turn>, last: Turn, tried: seq<Try>, action: FinalAction)
    requires last.ToolResult? && last.result.Some?
    decreases |front| + |tried|, 0
  {
    && EndsWith(tried, last.name) && EndsWith(tried[..|tried| - 1], last.name)
    && var first, second := tried[|tried| - 2].outcome, tried[|tried| - 1].outcome;
    && Temporary(first) && last.result == Some(second)
    && var reported := if second.Returned? then ActionIn(second) else ActionIn(first);
    && exists before :: Accounts(front, tried[..|tried| - 2], before) && Reports(before, reported, action)
  }

  lemma FailsTemporarily(o: Outcome)
    ensures IsFailure(o) && IsTransient(o) <==> Temporary(o)
  {
  }

  lemma RepliedMore(messages: seq<Turn>, turn: Turn)
    ensures RepliedIn(messages + [turn]) <==> RepliedIn(messages) || ReplySucceeded(turn)
  {
    var more := messages + [turn];
    assert more[|messages|] == turn;
    assert forall i :: 0 <= i < |messages| ==> more[i] == messages[i];
  }

  lemma UsedMore(messages: seq<Turn>, turn: Turn, tools: set<ToolName>)
    ensures UsedIn(messages + [turn], tools) <==> UsedIn(messages, tools) || (turn.ToolResult? && turn.name in tools)
  {
    var more := messages + [turn];
    assert more[|messages|] == turn;
    assert forall i :: 0 <= i < |messages| ==> more[i] == messages[i];
  }

  lemma ResultSucceeds(r: CallResult)
    ensures ReplySucceeded(ResultOf(r)) <==> Succeeded(r)
  {
  }

  /** A turn that is no result changes nothing. */
  lemma AccountsTurn(messages: seq<Turn>, tried: seq<Try>, action: FinalAction, turn: Turn)
    requires Accounts(messages, tried, action) && !turn.ToolResult?
    ensures Accounts(messages + [turn], tried, action)
    decreases |tried|
  {
    assert (messages + [turn])[..|messages|] == messages;
    if tried != [] && tried[|tried| - 1].fallback {
      AccountsTurn(messages, tried[..|tried| - 1], NoAction, turn);
    }
  }

  lemma AccountsBlocked(messages: seq<Turn>, tried: seq<Try>, action: FinalAction, turn: Turn)
    requires Accounts(messages, tried, action) && RepliedIn(messages)
    requires turn.ToolResult? && turn.name == ReplyToConversation && turn.result.None?
    ensures Accounts(messages + [turn], tried, action)
    decreases |tried|
  {
    assert (messages + [turn])[..|messages|] == messages;
    if tried != [] && tried[|tried| - 1].fallback {
      AccountsBlocked(messages, tried[..|tried| - 1], NoAction, turn);
    }
  }

  lemma AccountsOnce(messages: seq<Turn>, tried: seq<Try>, before: FinalAction, action: FinalAction, turn: Turn, t: Try)
    requires Accounts(messages, tried, before) && turn.ToolResult? && turn.result == Some(t.outcome)
    requires !(turn.name == ReplyToConversation && RepliedIn(messages))
    requires t.name == turn.name && !t.fallback && !Temporary(t.outcome) && Reports(before, ActionIn(t.outcome), action)
    ensures Accounts(messages + [turn], tried + [t], action)
  {
    assert (messages + [turn])[..|messages|] == messages && (tried + [t])[..|tried|] == tried;
    assert Once(messages, turn, tried + [t], action);
  }

  lemma AccountsTwice(messages: seq<Turn>, tried: seq<Try>, before: FinalAction, action: FinalAction, turn: Turn,
                      t: Try, u: Try)
    requires Accounts(messages, tried, before) && turn.ToolResult? && turn.result == Some(u.outcome)
    requires !(turn.name == ReplyToConversation && RepliedIn(messages))
    requires t.name == u.name == turn.name && !t.fallback && !u.fallback && Temporary(t.outcome)
    requires Reports(before, if u.outcome.Returned? then ActionIn(u.outcome) else ActionIn(t.outcome), action)
    ensures Accounts(messages + [turn], tried + [t, u], action)
  {
    var more := tried + [t, u];
    assert (messages + [turn])[..|messages|] == messages;
    assert more[..|tried|] == tried && more[..|more| - 1][|tried|] == t;
    assert Twice(messages, turn, more, action);
  }

  /** Executing one call of the batch. */
  lemma AccountsCall(tools: (nat, ToolName) -> Outcome, messages: seq<Turn>, tried: seq<Try>, action: FinalAction,
                     k: nat, c: Call, served: nat)
    requires Accounts(messages, tried, action)
    ensures var r := Execute(tools, k, c, RepliedIn(messages));
      && Accounts(messages + [ResultOf(r)], tried + OwnTries(c.name, r.tries, served), After(action, r))
      && (RepliedIn(messages + [ResultOf(r)]) <==> RepliedIn(messages) || Succeeded(r))
  {
    var r := Execute(tools, k, c, RepliedIn(messages));
    ResultSucceeds(r);
    RepliedMore(messages, ResultOf(r));
    if r.tries == [] {
      AccountsBlocked(messages, tried, action, ResultOf(r));
      assert tried + [] == tried;
    } else {
      var o, o' := tools(k, c.name), tools(k + 1, c.name);
      FailsTemporarily(o);
      var t, u := Try(c.name, o, served, false), Try(c.name, o', served, false);
      if Temporary(o) {
        SingleTry(c.name, o', served);
        assert r.tries == [o, o'] && [o, o'][1..] == [o'];
        assert OwnTries(c.name, r.tries, served) == [t, u];
        AccountsTwice(messages, tried, action, After(action, r), ResultOf(r), t, u);
      } else {
        SingleTry(c.name, o, served);
        AccountsOnce(messages, tried, action, After(action, r), ResultOf(r), t);
      }
    }
  }

  // ------------------------------------------------------------------- batches

  /** The k-th execution of the run answered what the environment gives for it. */
  ghost predicate Real(env: Env, tried: seq<Try>) {
    forall k :: 0 <= k < |tried| ==> tried[k].outcome == env.tools(k, tried[k].name)
  }

  /** The model call an execution served asked for that tool, or its text was sent. */
  predicate Serves(env: Env, t: Try, n: nat) {
    && t.served < n
    && if t.fallback then t.name == ReplyToConversation && Stops(env.llm(t.served))
       else
         && env.llm(t.served).Answer? && !env.llm(t.served).stop
         && exists c :: c in env.llm(t.served).calls && c.name == t.name
  }

  lemma ResultsMore(rs: seq<CallResult>, r: CallResult, served: nat)
    ensures Results(rs + [r]) == Results(rs) + [ResultOf(r)]
    ensures TriesOf(rs + [r], served) == TriesOf(rs, served) + OwnTries(r.call.name, r.tries, served)
  {
    assert (rs + [r])[..|rs|] == rs;
  }

  /** Where a batch stands after its first `n` calls, with what was there before. */
  ghost predicate BatchAccounts(b: Batch, messages: seq<Turn>, tried: seq<Try>, action: FinalAction, served: nat) {
    && Accounts(messages + Results(b.results), tried + TriesOf(b.results, served), FirstAction(action, b.results))
    && b.replied == RepliedIn(messages + Results(b.results))
    && b.k == |tried + TriesOf(b.results, served)|
  }

  /** The calls so far and one more. */
  lemma AppendOne<T>(a: seq<T>, b: seq<T>, c: seq<T>)
    ensures a + (b + c) == a + b + c
  {
  }

  lemma BatchAccountsMore(tools: (nat, ToolName) -> Outcome, b: Batch, c: Call, messages: seq<Turn>, tried: seq<Try>,
                          action: FinalAction, served: nat)
    requires BatchAccounts(b, messages, tried, action, served)
    ensures BatchAccounts(BatchWith(b, Execute(tools, b.k, c, b.replied)), messages, tried, action, served)
  {
    var r := Execute(tools, b.k, c, b.replied);
    var m, t := messages + Results(b.results), tried + TriesOf(b.results, served);
    AccountsCall(tools, m, t, FirstAction(action, b.results), b.k, c, served);
    OwnTriesLength(c.name, r.tries, served);
    ResultsMore(b.results, r, served);
    OneMore(b.results, r, action, served);
    AppendOne(messages, Results(b.results), [ResultOf(r)]);
    AppendOne(tried, TriesOf(b.results, served), OwnTries(c.name, r.tries, served));
  }

  lemma {:induction false} OwnTriesLength(name: ToolName, tries: seq<Outcome>, served: nat)
    ensures |OwnTries(name, tries, served)| == |tries|
    ensures forall i :: 0 <= i < |tries| ==> OwnTries(name, tries, served)[i] == Try(name, tries[i], served, false)
  {
    if tries != [] { OwnTriesLength(name, tries[1..], served); }
  }

  lemma {:induction false} BatchIsAccounted(tools: (nat, ToolName) -> Outcome, messages: seq<Turn>, tried: seq<Try>,
                                            action: FinalAction, calls: seq<Call>, n: nat, served: nat)
    requires n <= |calls| && Accounts(messages, tried, action)
    ensures BatchAccounts(Executed(tools, |tried|, calls, RepliedIn(messages), n), messages, tried, action, served)
  {
    if n == 0 {
      assert messages + [] == messages && tried + [] == tried;
    } else {
      BatchIsAccounted(tools, messages, tried, action, calls, n - 1, served);
      var b := Executed(tools, |tried|, calls, RepliedIn(messages), n - 1);
      BatchAccountsMore(tools, b, calls[n - 1], messages, tried, action, served);
      ExecutedMore(tools, |tried|, calls, RepliedIn(messages), n);
    }
  }

  /** Executions of a batch are the environment's, one after the other, and serve its model call. */
  ghost predicate BatchIsReal(env: Env, b: Batch, tried: seq<Try>, calls: seq<Call>, served: nat) {
    var more := TriesOf(b.results, served);
    b.k == |tried + more| && Real(env, tried + more) && forall t :: t in more ==> OfBatch(t, calls, served)
  }

  predicate OfBatch(t: Try, calls: seq<Call>, served: nat) {
    !t.fallback && t.served == served && exists c :: c in calls && c.name == t.name
  }

  lemma RealMore(env: Env, b: Batch, tried: seq<Try>, calls: seq<Call>, c: Call, served: nat)
    requires BatchIsReal(env, b, tried, calls, served) && c in calls
    ensures BatchIsReal(env, BatchWith(b, Execute(env.tools, b.k, c, b.replied)), tried, calls, served)
  {
    var r := Execute(env.tools, b.k, c, b.replied);
    var own := OwnTries(c.name, r.tries, served);
    ResultsMore(b.results, r, served);
    OwnTriesLength(c.name, r.tries, served);
    CallIsReal(env, tried + TriesOf(b.results, served), c, b.replied, served);
    assert tried + (TriesOf(b.results, served) + own) == tried + TriesOf(b.results, served) + own;
    forall t | t in own ensures OfBatch(t, calls, served) {
      assert t.name == c.name;
    }
  }

  lemma {:induction false} EveryBatchIsReal(env: Env, tried: seq<Try>, calls: seq<Call>, replied: bool, n: nat,
                                            served: nat)
    requires n <= |calls| && Real(env, tried)
    ensures BatchIsReal(env, Executed(env.tools, |tried|, calls, replied, n), tried, calls, served)
  {
    if n == 0 {
      assert tried + [] == tried;
    } else {
      EveryBatchIsReal(env, tried, calls, replied, n - 1, served);
      RealMore(env, Executed(env.tools, |tried|, calls, replied, n - 1), tried, calls, calls[n - 1], served);
      ExecutedMore(env.tools, |tried|, calls, replied, n);
    }
  }

  lemma CallIsReal(env: Env, tried: seq<Try>, c: Call, replied: bool, served: nat)
    requires Real(env, tried)
    ensures Real(env, tried + OwnTries(c.name, Execute(env.tools, |tried|, c, replied).tries, served))
  {
    OwnTriesLength(c.name, Execute(env.tools, |tried|, c, replied).tries, served);
  }

  lemma {:induction false} ResultsAreUses(rs: seq<CallResult>, messages: seq<Turn>)
    ensures forall name :: UsedIn(messages + Results(rs), {name}) <==> UsedIn(messages, {name}) || name in Names(rs)
    ensures Questions(messages + Results(rs)) == Questions(messages)
    ensures forall i :: 0 <= i < |Results(rs)| ==> Results(rs)[i].ToolResult?
  {
    if rs == [] {
      assert messages + [] == messages;
    } else {
      var front, r := rs[..|rs| - 1], rs[|rs| - 1];
      ResultsAreUses(front, messages);
      var m := messages + Results(front);
      assert messages + Results(rs) == m + [ResultOf(r)];
      assert (m + [ResultOf(r)])[..|m|] == m;
      forall name ensures UsedIn(m + [ResultOf(r)], {name}) <==> UsedIn(m, {name}) || name == r.call.name {
        UsedMore(m, ResultOf(r), {name});
      }
    }
  }

  // ------------------------------------------------------------ over every run

  const PREPARING := {LookupOffering, GetProductPitch, CheckPurchase}

  /** A nudge comes only after an offer or a purchase was looked up and before any reply was asked for. */
  ghost predicate NudgesAreDue(messages: seq<Turn>) {
    forall i :: 0 <= i < |messages| && messages[i].Nudge? ==>
      UsedIn(messages[..i], PREPARING) && !UsedIn(messages[..i], {ReplyToConversation})
  }

  ghost predicate Accounted(s: RunState) {
    Accounts(s.messages, s.tried, s.finalAction) && s.replied == RepliedIn(s.messages)
  }

  ghost predicate Grounded(env: Env, s: RunState) {
    Real(env, s.tried) && forall t :: t in s.tried ==> Serves(env, t, |s.models|)
  }

  ghost predicate Nudged(s: RunState) {
    NudgesAreDue(s.messages) && forall name :: name in s.toolsCalled <==> UsedIn(s.messages, {name})
  }

  ghost predicate Inv(env: Env, s: RunState) {
    Accounted(s) && Grounded(env, s) && Nudged(s) && Questions(s.messages) == Asked(env.llm, |s.models|)
  }

  lemma NoUse(messages: seq<Turn>, turn: Turn)
    requires !turn.ToolResult?
    ensures forall tools :: UsedIn(messages + [turn], tools) <==> UsedIn(messages, tools)
    ensures RepliedIn(messages + [turn]) <==> RepliedIn(messages)
    ensures Questions(messages + [turn]) == Questions(messages) + if turn.Assistant? then [turn.calls] else []
  {
    assert (messages + [turn])[..|messages|] == messages;
    RepliedMore(messages, turn);
    forall tools ensures UsedIn(messages + [turn], tools) <==> UsedIn(messages, tools) {
      UsedMore(messages, turn, tools);
    }
  }

  lemma NudgesMore(messages: seq<Turn>, more: seq<Turn>)
    requires NudgesAreDue(messages)
    requires forall i :: 0 <= i < |more| ==> !more[i].Nudge?
    ensures NudgesAreDue(messages + more)
  {
    var all := messages + more;
    forall i | 0 <= i < |all| && all[i].Nudge?
      ensures UsedIn(all[..i], PREPARING) && !UsedIn(all[..i], {ReplyToConversation})
    {
      assert i < |messages| && all[..i] == messages[..i];
    }
  }

  lemma NudgeIsDue(messages: seq<Turn>)
    requires NudgesAreDue(messages) && UsedIn(messages, PREPARING) && !UsedIn(messages, {ReplyToConversation})
    ensures NudgesAreDue(messages + [Nudge])
  {
    var all := messages + [Nudge];
    forall i | 0 <= i < |all| && all[i].Nudge?
      ensures UsedIn(all[..i], PREPARING) && !UsedIn(all[..i], {ReplyToConversation})
    {
      assert all[..i] == messages[..i];
      assert messages[..|messages|] == messages;
    }
  }

  lemma {:induction false} RepliedResults(rs: seq<CallResult>, messages: seq<Turn>)
    ensures RepliedIn(messages + Results(rs)) <==> RepliedIn(messages) || AnySucceeded(rs)
  {
    if rs == [] {
      assert messages + [] == messages;
    } else {
      var front, r := rs[..|rs| - 1], rs[|rs| - 1];
      RepliedResults(front, messages);
      RepliedMore(messages + Results(front), ResultOf(r));
      ResultSucceeds(r);
      assert messages + Results(rs) == messages + Results(front) + [ResultOf(r)];
    }
  }

  lemma UseToolsIsAccounted(env: Env, u: RunState, calls: seq<Call>)
    requires Accounted(u) && u.models != []
    ensures Accounted(UseTools(env, u, calls))
  {
    var rs := ExecuteCalls(env.tools, |u.tried|, calls, u.replied);
    NoUse(u.messages, Assistant(calls));
    AccountsTurn(u.messages, u.tried, u.finalAction, Assistant(calls));
    var asked := u.messages + [Assistant(calls)];
    BatchIsAccounted(env.tools, asked, u.tried, u.finalAction, calls, |calls|, |u.models| - 1);
    RepliedResults(rs, asked);
  }

  lemma UseToolsIsGrounded(env: Env, u: RunState)
    requires u.models != [] && Grounded(env, u)
    requires var r := env.llm(|u.models| - 1); r.Answer? && !r.stop
    ensures Grounded(env, UseTools(env, u, env.llm(|u.models| - 1).calls))
  {
    EveryBatchIsReal(env, u.tried, env.llm(|u.models| - 1).calls, u.replied, |env.llm(|u.models| - 1).calls|,
                     |u.models| - 1);
  }

  lemma BatchUses(messages: seq<Turn>, calls: seq<Call>, rs: seq<CallResult>)
    requires NudgesAreDue(messages)
    ensures var more := messages + [Assistant(calls)] + Results(rs);
      && (forall name :: UsedIn(more, {name}) <==> UsedIn(messages, {name}) || name in Names(rs))
      && NudgesAreDue(more) && Questions(more) == Questions(messages) + [calls]
  {
    var asked := messages + [Assistant(calls)];
    NoUse(messages, Assistant(calls));
    ResultsAreUses(rs, asked);
    NudgesMore(messages, [Assistant(calls)]);
    NudgesMore(asked, Results(rs));
  }

  lemma UseToolsIsNudged(env: Env, u: RunState, calls: seq<Call>)
    requires Nudged(u) && u.models != []
    ensures Nudged(UseTools(env, u, calls))
    ensures Questions(UseTools(env, u, calls).messages) == Questions(u.messages) + [calls]
  {
    BatchUses(u.messages, calls, ExecuteCalls(env.tools, |u.tried|, calls, u.replied));
  }

  lemma PreparingIsUsed(s: RunState)
    requires Nudged(s) && s.toolsCalled * SALES_PREP_TOOLS != {} && ReplyToConversation !in s.toolsCalled
    ensures UsedIn(s.messages, PREPARING) && !UsedIn(s.messages, {ReplyToConversation})
  {
    var name :| name in s.toolsCalled * SALES_PREP_TOOLS;
    assert UsedIn(s.messages, {name});
  }

  lemma FallbackAccounts(messages: seq<Turn>, tried: seq<Try>, t: Try)
    requires Accounts(messages, tried, NoAction) && t.fallback
    ensures Accounts(messages, tried + [t], if ActionIn(t.outcome).Some? then ActionIn(t.outcome).value else NoAction)
  {
    assert (tried + [t])[..|tried|] == tried;
  }

  lemma GroundedMore(env: Env, tried: seq<Try>, n: nat, t: Try)
    requires Real(env, tried) && forall x :: x in tried ==> Serves(env, x, n)
    requires t.outcome == env.tools(|tried|, t.name) && Serves(env, t, n)
    ensures Real(env, tried + [t]) && forall x :: x in tried + [t] ==> Serves(env, x, n)
  {
  }

  lemma FallbackKeepsInv(env: Env, u: RunState)
    requires Inv(env, u) && u.models != [] && Stops(env.llm(|u.models| - 1)) && u.finalAction == NoAction
    ensures Inv(env, Fallback(env, u))
  {
    var t := Try(ReplyToConversation, env.tools(|u.tried|, ReplyToConversation), |u.models| - 1, true);
    FallbackAccounts(u.messages, u.tried, t);
    GroundedMore(env, u.tried, |u.models|, t);
  }

  /** What the end of a turn leaves, by the two things it may do. */
  lemma EndTurnDoes(env: Env, u: RunState, model: string, text: string)
    requires u.models != []
    ensures var t, v := EndTurn(env, u, model, text), if u.finalAction == NoAction then Fallback(env, u) else u;
      || t == u.(escalate := true)
      || t == u.(phase := Completed) || (NeedsNudge(u) && t == u.(nudged := true, messages := u.messages + [Nudge]))
      || t == v.(phase := Completed) || (NeedsNudge(v) && t == v.(nudged := true, messages := v.messages + [Nudge]))
  {
  }

  /** The invariant looks at none of the other fields. */
  lemma SameAccount(env: Env, a: RunState, b: RunState)
    requires Inv(env, a) && |b.models| == |a.models|
    requires b.messages == a.messages && b.tried == a.tried && b.finalAction == a.finalAction
    requires b.replied == a.replied && b.toolsCalled == a.toolsCalled
    ensures Inv(env, b)
  {
  }

  lemma EndTurnKeepsInv(env: Env, u: RunState, model: string, text: string)
    requires Inv(env, u) && u.models != [] && Stops(env.llm(|u.models| - 1))
    ensures Inv(env, EndTurn(env, u, model, text))
  {
    var v := if u.finalAction == NoAction then Fallback(env, u) else u;
    if u.finalAction == NoAction { FallbackKeepsInv(env, u); }
    NudgeKeepsInv(env, u);
    NudgeKeepsInv(env, v);
    EndTurnDoes(env, u, model, text);
    SameAccount(env, u, u.(escalate := true));
    SameAccount(env, u, u.(phase := Completed));
    SameAccount(env, v, v.(phase := Completed));
  }

  lemma NudgeKeepsInv(env: Env, s: RunState)
    requires Inv(env, s)
    ensures NeedsNudge(s) ==> Inv(env, s.(nudged := true, messages := s.messages + [Nudge]))
  {
    if NeedsNudge(s) {
      AccountsTurn(s.messages, s.tried, s.finalAction, Nudge);
      NoUse(s.messages, Nudge);
      PreparingIsUsed(s);
      NudgeIsDue(s.messages);
    }
  }

  lemma AnswerKeepsInv(env: Env, s: RunState, u: RunState)
    requires Inv(env, s) && |u.models| == |s.models| + 1
    requires u.messages == s.messages && u.tried == s.tried && u.finalAction == s.finalAction
    requires u.replied == s.replied && u.toolsCalled == s.toolsCalled
    ensures Accounted(u) && Grounded(env, u) && Nudged(u)
    ensures Asked(env.llm, |u.models|) == Asked(env.llm, |s.models|) ==> Inv(env, u)
  {
    forall t | t in u.tried ensures Serves(env, t, |u.models|) {
      assert Serves(env, t, |s.models|);
    }
  }

  lemma IterateKeepsInv(env: Env, s: RunState)
    requires Inv(env, s) && s.phase.Going?
    ensures Inv(env, Iterate(env, s))
  {
    var model, response := if s.escalate then env.synthesisModel else env.toolModel, env.llm(|s.models|);
    var t := s.(models := s.models + [model], escalate := false);
    if response.Fails? {
      AnswerKeepsInv(env, s, t.(phase := Crashed));
    } else {
      var u := t.(usage := Plus(t.usage, response.usage));
      AnswerKeepsInv(env, s, u);
      if Stops(response) {
        EndTurnKeepsInv(env, u, model, response.text);
      } else {
        UseToolsIsAccounted(env, u, response.calls);
        UseToolsIsGrounded(env, u);
        UseToolsIsNudged(env, u, response.calls);
      }
    }
  }

  lemma {:induction false} RunKeepsInv(env: Env, n: nat)
    ensures Inv(env, Reached(env, n))
  {
    if n > 0 {
      RunKeepsInv(env, n - 1);
      if Reached(env, n - 1).phase.Going? { IterateKeepsInv(env, Reached(env, n - 1)); }
    }
  }

  /**
   * Over every run: transcript, executions and action account for each other; the assistant's turns are
   * the calls the model asked for; executions are what the environment answered and serve the model call
   * they name; and a nudge comes only when it is due.
   */
  lemma EveryRunIsAccounted(env: Env)
    ensures Inv(env, Finished(env))
  {
    RunKeepsInv(env, MAX_TOOL_ITERATIONS);
    var s := Reached(env, MAX_TOOL_ITERATIONS);
    SameAccount(env, s, s.(phase := Completed));
  }

  /** An execution for a call of the model, whose outcome is what the result carries. */
  predicate Gave(t: Try, turn: Turn) {
    turn.ToolResult? && t.name == turn.name && !t.fallback && turn.result == Some(t.outcome)
  }

  /** So each result in the transcript is blocked exactly after an earlier reply's success, and otherwise real. */
  lemma {:induction false} ResultsAreReal(messages: seq<Turn>, tried: seq<Try>, action: FinalAction, i: nat)
    requires Accounts(messages, tried, action) && i < |messages| && messages[i].ToolResult?
    ensures messages[i].result.None? <==>
      messages[i].name == ReplyToConversation && RepliedIn(messages[..i])
    ensures messages[i].result.Some? ==> exists k :: 0 <= k < |tried| && Gave(tried[k], messages[i])
    decreases |messages| + |tried|
  {
    if tried != [] && tried[|tried| - 1].fallback {
      ResultsAreReal(messages, tried[..|tried| - 1], NoAction, i);
    } else {
      var front, last := messages[..|messages| - 1], messages[|messages| - 1];
      if i < |front| {
        var n, before := FrontAccounts(front, last, tried, action);
        ResultsAreReal(front, tried[..n], before, i);
        assert front[..i] == messages[..i] && front[i] == messages[i];
      } else {
        assert messages[..i] == front;
      }
    }
  }

  lemma FrontAccounts(front: seq<Turn>, last: Turn, tried: seq<Try>, action: FinalAction)
    returns (n: nat, before: FinalAction)
    requires Accounts(front + [last], tried, action) && !(tried != [] && tried[|tried| - 1].fallback)
    ensures n <= |tried| && Accounts(front, tried[..n], before)
  {
    assert (front + [last])[..|front|] == front && tried[..|tried|] == tried;
    n, before := |tried|, action;
    if last.ToolResult? && !(last.name == ReplyToConversation && RepliedIn(front)) {
      if Once(front, last, tried, action) {
        n := |tried| - 1;
      } else {
        n := |tried| - 2;
      }
      before :| Accounts(front, tried[..n], before);
    }
  }

  // ----------------------------------------------------------- how turns go on

  /** A failed call crashes the run; after tools it goes on unless the conversation was transferred or closed. */
  lemma AfterTools(env: Env, n: nat)
    requires Reached(env, n).phase.Going?
    requires var r := env.llm(|Reached(env, n).models|); r.Fails? || (!r.stop && r.calls != [])
    ensures var s, t := Reached(env, n), Reached(env, n + 1);
      && (t.phase.Crashed? <==> env.llm(|s.models|).Fails?) && t.nudged == s.nudged
      && (t.phase.Completed? ==> t.finalAction == TransferredToHuman || t.finalAction == ClosedConversation)
      && (t.phase.Going? ==> t.finalAction != TransferredToHuman && t.finalAction != ClosedConversation)
  {
    assert Reached(env, n + 1) == Iterate(env, Reached(env, n));
  }

  /** From `s` to `t` by a final answer. */
  predicate EndsTurn(env: Env, s: RunState, t: RunState)
    requires env.llm(|s.models|).Answer?
  {
    if ModelOf(env, s) == env.toolModel && env.toolModel != env.synthesisModel
    then t.phase.Going? && t.nudged == s.nudged && t.messages == s.messages && t.tried == s.tried && t.escalate
    else
      var sends := |env.llm(|s.models|).text| >= 4 && s.finalAction == NoAction;
      && |t.tried| == |s.tried| + (if sends then 1 else 0)
      && (t.nudged != s.nudged <==> !s.nudged && t.finalAction == NoAction && Unanswered(s.messages))
      && t.messages == s.messages + (if t.nudged != s.nudged then [Nudge] else [])
      && (if t.nudged != s.nudged then t.phase.Going? else t.phase.Completed?)
  }

  /**
   * A final answer of the tool model goes to the synthesis model first. Any other is sent if it has four
   * characters and there was no action yet, and ends the run; but a customer about whom something was
   * looked up, who has no reply, is given one more turn after a nudge.
   */
  lemma AfterFinalAnswer(env: Env, n: nat)
    requires Reached(env, n).phase.Going?
    requires Stops(env.llm(|Reached(env, n).models|))
    ensures EndsTurn(env, Reached(env, n), Reached(env, n + 1))
  {
    RunKeepsInv(env, n);
    var s := Reached(env, n);
    UsedByName(s);
    AnswerEndsTurn(env, s);
  }

  function ModelOf(env: Env, s: RunState): string {
    if s.escalate then env.synthesisModel else env.toolModel
  }

  /** Something was looked up for the customer and no reply was asked for. */
  predicate Unanswered(messages: seq<Turn>) {
    UsedIn(messages, PREPARING) && !UsedIn(messages, {ReplyToConversation})
  }

  lemma AnswerEndsTurn(env: Env, s: RunState)
    requires Stops(env.llm(|s.models|)) && s.phase.Going?
    requires Unanswered(s.messages) <==>
      s.toolsCalled * SALES_PREP_TOOLS != {} && ReplyToConversation !in s.toolsCalled
    ensures EndsTurn(env, s, Iterate(env, s))
  {
  }

  lemma UsedByName(s: RunState)
    requires Nudged(s)
    ensures UsedIn(s.messages, PREPARING) <==> s.toolsCalled * SALES_PREP_TOOLS != {}
    ensures UsedIn(s.messages, {ReplyToConversation}) <==> ReplyToConversation in s.toolsCalled
  {
    if s.toolsCalled * SALES_PREP_TOOLS != {} {
      var name :| name in s.toolsCalled * SALES_PREP_TOOLS;
      assert UsedIn(s.messages, {name});
    }
    if UsedIn(s.messages, PREPARING) {
      var i :| 0 <= i < |s.messages| && s.messages[i].ToolResult? && s.messages[i].name in PREPARING;
      assert UsedIn(s.messages, {s.messages[i].name});
      assert s.messages[i].name in s.toolsCalled * SALES_PREP_TOOLS;
    }
  }
}

/**
 * One run of a conversational agent: up to eight model calls, tool calls with one
 * retry, a single customer reply, a text fallback, one nudge, and chaining to the
 * agent a run delegated to. The model and the tools may answer anything.
 */
module AgentRunner {
  import opened Common

  const MAX_TOOL_ITERATIONS := 8
  const MAX_CHAIN_DEPTH := 3

  /** The tools the loop itself looks out for, and all the rest. */
  datatype ToolName = ReplyToConversation | LookupOffering | GetProductPitch | CheckPurchase | Other(name: string)

  const SALES_PREP_TOOLS := {LookupOffering, GetProductPitch, CheckPurchase}

  datatype FinalAction = Replied | Delegated | HandedBack | TransferredToHuman | ClosedConversation | NoAction

  datatype Usage = Usage(input: int, output: int, cacheRead: int, cacheWrite: int, cost: real)

  datatype Call = Call(id: string, name: ToolName)

  /** `text` is what is left after turn markers are stripped and blanks trimmed. */
  datatype Response = Fails | Answer(stop: bool, calls: seq<Call>, text: string, usage: Usage)

  /**
   * One execution of a tool. `delivered`: it put a message on its way to the customer.
   * `ok` and `status` are the fields of the output looked at, when they are there.
   */
  datatype Outcome =
    | Threw(transient: bool, delivered: bool)
    | Returned(ok: Option<bool>, status: Option<int>, action: Option<FinalAction>, delivered: bool)

  /** The n-th model call of a run, and the k-th tool execution of a run for a tool. */
  datatype Env = Env(llm: nat -> Response, tools: (nat, ToolName) -> Outcome, toolModel: string, synthesisModel: string)

  /** `tries` is empty for a reply that was blocked. */
  datatype CallResult = CallResult(call: Call, tries: seq<Outcome>, action: Option<FinalAction>)

  datatype Turn =
    | Assistant(calls: seq<Call>)
    | ToolResult(id: string, name: ToolName, result: Option<Outcome>)
    | Nudge

  /** A tool execution, and which model call it served; `fallback`: the model's plain text sent as a reply. */
  datatype Try = Try(name: ToolName, outcome: Outcome, served: nat, fallback: bool)

  datatype Phase = Going | Completed | Crashed

  datatype RunState = RunState(
    messages: seq<Turn>,
    tried: seq<Try>,
    models: seq<string>,
    usage: Usage,
    finalAction: FinalAction,
    toolsCalled: set<ToolName>,
    nudged: bool,
    escalate: bool,
    replied: bool,
    phase: Phase
  )

  const NO_USAGE := Usage(0, 0, 0, 0, 0.0)
  const START := RunState([], [], [], NO_USAGE, NoAction, {}, false, false, false, Going)

  function Plus(a: Usage, b: Usage): Usage {
    Usage(a.input + b.input, a.output + b.output, a.cacheRead + b.cacheRead, a.cacheWrite + b.cacheWrite,
          a.cost + b.cost)
  }

  // -------------------------------------------------------------- tool calls

  predicate IsFailure(o: Outcome) {
    o.Threw? || o.ok == Some(false) || (o.status.Some? && o.status.value >= 400)
  }

  predicate IsTransient(o: Outcome) {
    if o.Threw? then o.transient else o.status.Some? && (o.status.value >= 500 || o.status.value == 429)
  }

  function Settle(tools: (nat, ToolName) -> Outcome, k: nat, name: ToolName): seq<Outcome> {
    var o := tools(k, name);
    if IsFailure(o) && IsTransient(o) then [o, tools(k + 1, name)] else [o]
  }

  /** A second execution that throws leaves the action reported by the first in place. */
  function ActionOf(tries: seq<Outcome>): Option<FinalAction>
    requires tries != []
  {
    var last := tries[|tries| - 1];
    if last.Returned? then last.action
    else if tries[0].Returned? then tries[0].action
    else None
  }

  predicate Succeeded(r: CallResult) {
    r.call.name == ReplyToConversation && r.tries != []
    && var last := r.tries[|r.tries| - 1]; last.Returned? && last.ok == Some(true)
  }

  /** Runs one call, unless it is a reply after an earlier one. */
  function Execute(tools: (nat, ToolName) -> Outcome, k: nat, c: Call, replied: bool): CallResult {
    if c.name == ReplyToConversation && replied then CallResult(c, [], None)
    else
      var tries := Settle(tools, k, c.name);
      CallResult(c, tries, ActionOf(tries))
  }

  /** Where a batch stands after its first `n` calls: results, executions so far, and whether a reply has succeeded. */
  datatype Batch = Batch(results: seq<CallResult>, k: nat, replied: bool)

  function Executed(tools: (nat, ToolName) -> Outcome, k: nat, calls: seq<Call>, replied: bool, n: nat): Batch
    requires n <= |calls|
  {
    if n == 0 then Batch([], k, replied)
    else
      var b := Executed(tools, k, calls, replied, n - 1);
      var r := Execute(tools, b.k, calls[n - 1], b.replied);
      Batch(b.results + [r], b.k + |r.tries|, b.replied || Succeeded(r))
  }

  function ExecuteCalls(tools: (nat, ToolName) -> Outcome, k: nat, calls: seq<Call>, replied: bool): seq<CallResult> {
    Executed(tools, k, calls, replied, |calls|).results
  }

  function TriesOf(rs: seq<CallResult>, served: nat): seq<Try> {
    if rs == [] then []
    else var r := rs[|rs| - 1]; TriesOf(rs[..|rs| - 1], served) + OwnTries(r.call.name, r.tries, served)
  }

  function OwnTries(name: ToolName, tries: seq<Outcome>, served: nat): seq<Try> {
    if tries == [] then [] else [Try(name, tries[0], served, false)] + OwnTries(name, tries[1..], served)
  }

  function ResultOf(r: CallResult): Turn {
    ToolResult(r.call.id, r.call.name, if r.tries == [] then None else Some(r.tries[|r.tries| - 1]))
  }

  function Results(rs: seq<CallResult>): seq<Turn> {
    if rs == [] then [] else Results(rs[..|rs| - 1]) + [ResultOf(rs[|rs| - 1])]
  }

  function Names(rs: seq<CallResult>): set<ToolName> {
    if rs == [] then {} else Names(rs[..|rs| - 1]) + {rs[|rs| - 1].call.name}
  }

  /** The first action that was reported stays. */
  function FirstAction(action: FinalAction, rs: seq<CallResult>): FinalAction {
    if rs == [] then action else After(FirstAction(action, rs[..|rs| - 1]), rs[|rs| - 1])
  }

  function After(action: FinalAction, r: CallResult): FinalAction {
    if action == NoAction && r.action.Some? then r.action.value else action
  }

  predicate AnySucceeded(rs: seq<CallResult>) {
    rs != [] && (AnySucceeded(rs[..|rs| - 1]) || Succeeded(rs[|rs| - 1]))
  }

  // --------------------------------------------------------------- iterations

  predicate Stops(r: Response) {
    r.Answer? && (r.stop || r.calls == [])
  }

  predicate HandsOff(action: FinalAction) {
    action == TransferredToHuman || action == ClosedConversation
  }

  function UseTools(env: Env, s: RunState, calls: seq<Call>): RunState
    requires s.models != []
  {
    var rs := ExecuteCalls(env.tools, |s.tried|, calls, s.replied);
    var action := FirstAction(s.finalAction, rs);
    s.(messages := s.messages + [Assistant(calls)] + Results(rs),
       tried := s.tried + TriesOf(rs, |s.models| - 1),
       toolsCalled := s.toolsCalled + Names(rs),
       finalAction := action,
       replied := s.replied || AnySucceeded(rs),
       phase := if HandsOff(action) then Completed else Going)
  }

  /** Sends the model's text as a reply, once, whatever comes of it. */
  function Fallback(env: Env, s: RunState): RunState
    requires s.models != []
  {
    var o := env.tools(|s.tried|, ReplyToConversation);
    s.(tried := s.tried + [Try(ReplyToConversation, o, |s.models| - 1, true)],
       finalAction := if o.Returned? && o.action.Some? then o.action.value else s.finalAction)
  }

  predicate NeedsNudge(s: RunState) {
    && s.toolsCalled * SALES_PREP_TOOLS != {} && ReplyToConversation !in s.toolsCalled
    && s.finalAction == NoAction && !s.nudged
  }

  function EndTurn(env: Env, s: RunState, model: string, text: string): RunState
    requires s.models != []
  {
    if model == env.toolModel && env.synthesisModel != env.toolModel then s.(escalate := true)
    else
      var t := if |text| >= 4 && s.finalAction == NoAction then Fallback(env, s) else s;
      if NeedsNudge(t) then t.(nudged := true, messages := t.messages + [Nudge]) else t.(phase := Completed)
  }

  function Iterate(env: Env, s: RunState): RunState {
    var model := if s.escalate then env.synthesisModel else env.toolModel;
    var response := env.llm(|s.models|);
    var t := s.(models := s.models + [model], escalate := false);
    if response.Fails? then t.(phase := Crashed)
    else
      var u := t.(usage := Plus(t.usage, response.usage));
      if Stops(response) then EndTurn(env, u, model, response.text) else UseTools(env, u, response.calls)
  }

  /** The run after `n` iterations, or where it ended before. */
  function Reached(env: Env, n: nat): RunState {
    if n == 0 then START
    else
      var s := Reached(env, n - 1);
      if s.phase.Going? then Iterate(env, s) else s
  }

  function Finished(env: Env): RunState {
    var s := Reached(env, MAX_TOOL_ITERATIONS);
    if s.phase.Going? then s.(phase := Completed) else s
  }

  // ----------------------------------------------------------------- one reply

  function Deliveries(tried: seq<Try>): nat {
    if tried == [] then 0
    else (if tried[0].name == ReplyToConversation && tried[0].outcome.delivered then 1 else 0) + Deliveries(tried[1..])
  }

  /** A reply that went out says so: it returns, reports success and no status that is retried, and names its action. */
  predicate HonestReply(o: Outcome) {
    o.delivered ==>
      && o.Returned? && o.ok == Some(true) && !(IsFailure(o) && IsTransient(o))
      && o.action.Some? && o.action.value != NoAction
  }

  ghost predicate ReplyContract(env: Env) {
    forall k :: HonestReply(env.tools(k, ReplyToConversation))
  }

  lemma {:induction false} DeliveriesAdd(a: seq<Try>, b: seq<Try>)
    ensures Deliveries(a + b) == Deliveries(a) + Deliveries(b)
  {
    if a == [] {
      assert a + b == b;
    } else {
      assert (a + b)[1..] == a[1..] + b;
      DeliveriesAdd(a[1..], b);
    }
  }

  lemma {:induction false} ActionStays(action: FinalAction, rs: seq<CallResult>)
    requires action != NoAction
    ensures FirstAction(action, rs) == action
  {
    if rs != [] { ActionStays(action, rs[..|rs| - 1]); }
  }

  /** Only the last execution of a call can have delivered, and then the call succeeded and names its action. */
  lemma SettleDelivers(env: Env, k: nat, c: Call, served: nat)
    requires ReplyContract(env)
    ensures var tries := Settle(env.tools, k, c.name);
      var sent := Deliveries(OwnTries(c.name, tries, served));
      && sent <= 1
      && (c.name != ReplyToConversation ==> sent == 0)
      && (sent == 1 ==> Succeeded(CallResult(c, tries, ActionOf(tries))))
      && (sent == 1 ==> ActionOf(tries).Some? && ActionOf(tries).value != NoAction)
  {
    assert HonestReply(env.tools(k, ReplyToConversation)) && HonestReply(env.tools(k + 1, ReplyToConversation));
    var o, o' := env.tools(k, c.name), env.tools(k + 1, c.name);
    SingleTry(c.name, o, served);
    SingleTry(c.name, o', served);
    assert [o, o'][1..] == [o'];
    DeliveriesAdd([Try(c.name, o, served, false)], [Try(c.name, o', served, false)]);
  }

  lemma SingleTry(name: ToolName, o: Outcome, served: nat)
    ensures OwnTries(name, [o], served) == [Try(name, o, served, false)]
    ensures Deliveries([Try(name, o, served, false)]) == if name == ReplyToConversation && o.delivered then 1 else 0
  {
    assert [o][1..] == [] && [Try(name, o, served, false)][1..] == [];
  }

  /** A batch delivers at most one reply, none after an earlier success, and then says so. */
  predicate Clean(rs: seq<CallResult>, replied: bool, action: FinalAction, served: nat) {
    var sent := Deliveries(TriesOf(rs, served));
    && sent <= (if replied then 0 else 1)
    && (sent == 1 ==> AnySucceeded(rs) && FirstAction(action, rs) != NoAction)
  }

  lemma OneMore(rs: seq<CallResult>, r: CallResult, action: FinalAction, served: nat)
    ensures Deliveries(TriesOf(rs + [r], served))
         == Deliveries(TriesOf(rs, served)) + Deliveries(OwnTries(r.call.name, r.tries, served))
    ensures AnySucceeded(rs + [r]) == (AnySucceeded(rs) || Succeeded(r))
    ensures FirstAction(action, rs + [r]) == After(FirstAction(action, rs), r)
  {
    assert (rs + [r])[..|rs|] == rs;
    DeliveriesAdd(TriesOf(rs, served), OwnTries(r.call.name, r.tries, served));
  }

  lemma CleanMore(env: Env, rs: seq<CallResult>, k: nat, c: Call, replied: bool, action: FinalAction, served: nat)
    requires ReplyContract(env) && Clean(rs, replied, action, served)
    ensures var r := Execute(env.tools, k, c, replied || AnySucceeded(rs));
      Clean(rs + [r], replied, action, served) && AnySucceeded(rs + [r]) == (AnySucceeded(rs) || Succeeded(r))
  {
    OneMore(rs, Execute(env.tools, k, c, replied || AnySucceeded(rs)), action, served);
    SettleDelivers(env, k, c, served);
  }

  predicate CleanBatch(b: Batch, replied: bool, action: FinalAction, served: nat) {
    Clean(b.results, replied, action, served) && b.replied == (replied || AnySucceeded(b.results))
  }

  function BatchWith(b: Batch, r: CallResult): Batch {
    Batch(b.results + [r], b.k + |r.tries|, b.replied || Succeeded(r))
  }

  lemma CleanBatchMore(env: Env, b: Batch, c: Call, replied: bool, action: FinalAction, served: nat)
    requires ReplyContract(env) && CleanBatch(b, replied, action, served)
    ensures CleanBatch(BatchWith(b, Execute(env.tools, b.k, c, b.replied)), replied, action, served)
  {
    CleanMore(env, b.results, b.k, c, replied, action, served);
  }

  /** At any point of a batch at most one reply has been delivered, and then the batch knows. */
  lemma {:induction false} BatchDeliversOnce(env: Env, k: nat, calls: seq<Call>, replied: bool, n: nat,
                                             action: FinalAction, served: nat)
    requires ReplyContract(env) && n <= |calls|
    ensures CleanBatch(Executed(env.tools, k, calls, replied, n), replied, action, served)
  {
    if n > 0 {
      BatchDeliversOnce(env, k, calls, replied, n - 1, action, served);
      CleanBatchMore(env, Executed(env.tools, k, calls, replied, n - 1), calls[n - 1], replied, action, served);
      ExecutedMore(env.tools, k, calls, replied, n);
    }
  }

  lemma ExecutedMore(tools: (nat, ToolName) -> Outcome, k: nat, calls: seq<Call>, replied: bool, n: nat)
    requires 0 < n <= |calls|
    ensures var b := Executed(tools, k, calls, replied, n - 1);
      Executed(tools, k, calls, replied, n) == BatchWith(b, Execute(tools, b.k, calls[n - 1], b.replied))
  {
  }

  ghost predicate OneReply(s: RunState) {
    && Deliveries(s.tried) <= 1
    && (s.phase.Going? && Deliveries(s.tried) == 1 ==> s.replied && s.finalAction != NoAction)
  }

  lemma EndTurnKeepsOneReply(env: Env, s: RunState, model: string, text: string)
    requires ReplyContract(env) && OneReply(s) && s.phase.Going? && s.models != []
    ensures OneReply(EndTurn(env, s, model, text))
  {
    var t := Try(ReplyToConversation, env.tools(|s.tried|, ReplyToConversation), |s.models| - 1, true);
    assert HonestReply(t.outcome);
    DeliveriesAdd(s.tried, [t]);
    assert [t][1..] == [];
  }

  lemma UseToolsKeepsOneReply(env: Env, s: RunState, calls: seq<Call>)
    requires ReplyContract(env) && OneReply(s) && s.phase.Going? && s.models != []
    ensures OneReply(UseTools(env, s, calls))
  {
    var rs := ExecuteCalls(env.tools, |s.tried|, calls, s.replied);
    BatchDeliversOnce(env, |s.tried|, calls, s.replied, |calls|, s.finalAction, |s.models| - 1);
    DeliveriesAdd(s.tried, TriesOf(rs, |s.models| - 1));
    if s.finalAction != NoAction { ActionStays(s.finalAction, rs); }
  }

  lemma IterateKeepsOneReply(env: Env, s: RunState)
    requires ReplyContract(env) && OneReply(s) && s.phase.Going?
    ensures OneReply(Iterate(env, s))
  {
    var model := if s.escalate then env.synthesisModel else env.toolModel;
    var response := env.llm(|s.models|);
    if response.Answer? {
      var u := s.(models := s.models + [model], escalate := false, usage := Plus(s.usage, response.usage));
      EndTurnKeepsOneReply(env, u, model, response.text);
      UseToolsKeepsOneReply(env, u, response.calls);
    }
  }

  lemma {:induction false} ReachedOneReply(env: Env, n: nat)
    requires ReplyContract(env)
    ensures OneReply(Reached(env, n))
  {
    if n > 0 {
      ReachedOneReply(env, n - 1);
      if Reached(env, n - 1).phase.Going? { IterateKeepsOneReply(env, Reached(env, n - 1)); }
    }
  }

  /** However the model and the tools behave, a run delivers at most one reply, if replies report themselves. */
  lemma AtMostOneReply(env: Env)
    requires ReplyContract(env)
    ensures Deliveries(Finished(env).tried) <= 1
  {
    ReachedOneReply(env, MAX_TOOL_ITERATIONS);
  }

  lemma {:induction false} EndedStays(env: Env, m: nat, n: nat)
    requires m <= n && !Reached(env, m).phase.Going?
    ensures Reached(env, n) == Reached(env, m)
  {
    if m < n { EndedStays(env, m, n - 1); }
  }

  /** A model that asks for two replies at once and then writes text. */
  function Insistent(): nat -> Response {
    n => if n == 0 then Answer(false, TWO_REPLIES, "", NO_USAGE) else Answer(true, [], "text", NO_USAGE)
  }

  function Always(o: Outcome): (nat, ToolName) -> Outcome {
    (k: nat, name: ToolName) => o
  }

  const TWO_REPLIES := [Call("a", ReplyToConversation), Call("b", ReplyToConversation)]

  lemma TwoReplies(o: Outcome)
    ensures var r := Execute(Always(o), 0, TWO_REPLIES[0], false);
      ExecuteCalls(Always(o), 0, TWO_REPLIES, false) ==
      [] + [r] + [Execute(Always(o), |r.tries|, TWO_REPLIES[1], Succeeded(r))]
  {
    var r := Execute(Always(o), 0, TWO_REPLIES[0], false);
    assert Executed(Always(o), 0, TWO_REPLIES, false, 1) == Batch([] + [r], |r.tries|, Succeeded(r));
  }

  lemma DishonestBatch(o: Outcome)
    requires o.delivered && !HonestReply(o)
    ensures var rs := ExecuteCalls(Always(o), 0, TWO_REPLIES, false);
      var sent := Deliveries(TriesOf(rs, 0));
      sent >= 2 || (sent == 1 && FirstAction(NoAction, rs) == NoAction)
  {
    var r := Execute(Always(o), 0, TWO_REPLIES[0], false);
    var r' := Execute(Always(o), |r.tries|, TWO_REPLIES[1], Succeeded(r));
    TwoReplies(o);
    OneMore([], r, NoAction, 0);
    OneMore([] + [r], r', NoAction, 0);
    SameOutcomeDelivers(o, 0);
    SameOutcomeDelivers(o, |r.tries|);
  }

  lemma SameOutcomeDelivers(o: Outcome, k: nat)
    requires o.delivered
    ensures var tries := Settle(Always(o), k, ReplyToConversation);
      Deliveries(OwnTries(ReplyToConversation, tries, 0)) == if IsFailure(o) && IsTransient(o) then 2 else 1
  {
    var t := Try(ReplyToConversation, o, 0, false);
    SingleTry(ReplyToConversation, o, 0);
    assert [o, o][1..] == [o];
    DeliveriesAdd([t], [t]);
  }

  lemma AfterTwoReplies(o: Outcome, model: string)
    ensures var s := Reached(Env(Insistent(), Always(o), model, model), 1);
      var rs := ExecuteCalls(Always(o), 0, TWO_REPLIES, false);
      && s.tried == TriesOf(rs, 0)
      && s.finalAction == FirstAction(NoAction, rs)
      && (s.finalAction == NoAction ==> s.phase.Going?)
      && |s.models| == 1
  {
    var env := Env(Insistent(), Always(o), model, model);
    var u := START.(models := [model], usage := Plus(NO_USAGE, NO_USAGE));
    assert Reached(env, 0) == START && [] + [model] == [model];
    assert Reached(env, 1) == UseTools(env, u, TWO_REPLIES);
    assert [] + TriesOf(ExecuteCalls(Always(o), 0, TWO_REPLIES, false), 0)
        == TriesOf(ExecuteCalls(Always(o), 0, TWO_REPLIES, false), 0);
  }

  lemma {:induction false} DeliveriesStay(env: Env, m: nat, n: nat)
    requires m <= n
    ensures Deliveries(Reached(env, m).tried) <= Deliveries(Reached(env, n).tried)
  {
    if m < n {
      DeliveriesStay(env, m, n - 1);
      var s := Reached(env, n - 1);
      if s.phase.Going? { TriedGrows(env, s); }
    }
  }

  lemma TriedGrows(env: Env, s: RunState)
    ensures Deliveries(s.tried) <= Deliveries(Iterate(env, s).tried)
  {
    var t := Iterate(env, s);
    assert t.tried[..|s.tried|] == s.tried;
    assert t.tried == s.tried + t.tried[|s.tried|..];
    DeliveriesAdd(s.tried, t.tried[|s.tried|..]);
  }

  lemma TextAfterSilence(env: Env, s: RunState, o: Outcome)
    requires env.llm == Insistent() && env.tools == Always(o) && env.toolModel == env.synthesisModel
    requires |s.models| == 1 && s.finalAction == NoAction && o.delivered
    ensures Deliveries(Iterate(env, s).tried) == Deliveries(s.tried) + 1
  {
    var t := Try(ReplyToConversation, o, 1, true);
    DeliveriesAdd(s.tried, [t]);
    assert [t][1..] == [];
    assert Iterate(env, s).tried == s.tried + [t];
  }

  /** The contract cannot be weaker: with any other outcome of a delivering reply some model replies twice. */
  lemma DishonestReplyRepeats(o: Outcome, model: string)
    requires o.delivered && !HonestReply(o)
    ensures Deliveries(Finished(Env(Insistent(), Always(o), model, model)).tried) >= 2
  {
    var env := Env(Insistent(), Always(o), model, model);
    AfterTwoReplies(o, model);
    DishonestBatch(o);
    DeliveriesStay(env, 1, MAX_TOOL_ITERATIONS);
    var s := Reached(env, 1);
    if Deliveries(s.tried) < 2 {
      TextAfterSilence(env, s, o);
      assert Reached(env, 2) == Iterate(env, s);
      DeliveriesStay(env, 2, MAX_TOOL_ITERATIONS);
    }
  }
}

/**
 * What every agent run leaves behind: a well-formed transcript, usage that adds up,
 * the model each call went to, one final action; and how far runs chain.
 */
module AgentTranscript {
  import opened Common
  import opened AgentRunner
  import Account = AgentAccount

  // --------------------------------------------------------------- transcript

  /** Every assistant turn is followed by exactly one result per call, in order; in between there may be nudges. */
  predicate WellFormed(messages: seq<Turn>)
    decreases |messages|
  {
    messages == []
    || match messages[0]
       case ToolResult(_, _, _) => false
       case Nudge => WellFormed(messages[1..])
       case Assistant(calls) =>
         && calls != []
         && |messages| > |calls|
         && (forall i :: 0 <= i < |calls| ==> Answers(messages[1..][i], calls[i]))
         && WellFormed(messages[1 + |calls|..])
  }

  predicate Answers(turn: Turn, call: Call) {
    turn.ToolResult? && turn.id == call.id && turn.name == call.name
  }

  function Nudges(messages: seq<Turn>): nat {
    if messages == [] then 0 else (if messages[0].Nudge? then 1 else 0) + Nudges(messages[1..])
  }

  /** One assistant turn with its results. */
  predicate IsBlock(block: seq<Turn>) {
    && block != [] && block[0].Assistant? && block[0].calls != [] && |block| == 1 + |block[0].calls|
    && forall i :: 0 <= i < |block[0].calls| ==> Answers(block[i + 1], block[0].calls[i])
  }

  lemma StartsWithBlock(a: seq<Turn>) returns (block: seq<Turn>, rest: seq<Turn>)
    requires WellFormed(a) && a != [] && a[0].Assistant?
    ensures a == block + rest && IsBlock(block) && WellFormed(rest) && |rest| < |a|
  {
    block, rest := a[..1 + |a[0].calls|], a[1 + |a[0].calls|..];
    assert forall i :: 0 <= i < |a[0].calls| ==> a[1..][i] == block[i + 1];
  }

  lemma BlockFirst(block: seq<Turn>, rest: seq<Turn>)
    requires IsBlock(block) && WellFormed(rest)
    ensures WellFormed(block + rest)
  {
    var all := block + rest;
    assert all[|block|..] == rest;
    assert forall i :: 0 <= i < |block[0].calls| ==> all[1..][i] == block[i + 1];
  }

  lemma NudgeFirst(a: seq<Turn>, b: seq<Turn>)
    requires a != [] && a[0].Nudge? && WellFormed(a[1..] + b)
    ensures WellFormed(a + b)
  {
    assert (a + b)[1..] == a[1..] + b;
  }

  lemma BlockThenMore(block: seq<Turn>, rest: seq<Turn>, b: seq<Turn>)
    requires IsBlock(block) && WellFormed(rest + b)
    ensures WellFormed((block + rest) + b)
  {
    BlockFirst(block, rest + b);
    assert block + (rest + b) == (block + rest) + b;
  }

  lemma {:induction false} WellFormedAppend(a: seq<Turn>, b: seq<Turn>)
    requires WellFormed(a) && WellFormed(b)
    ensures WellFormed(a + b)
    decreases |a|
  {
    if a == [] {
      assert a + b == b;
    } else if a[0].Nudge? {
      WellFormedAppend(a[1..], b);
      NudgeFirst(a, b);
    } else {
      var block, rest := StartsWithBlock(a);
      WellFormedAppend(rest, b);
      BlockThenMore(block, rest, b);
    }
  }

  lemma {:induction false} NudgesAdd(a: seq<Turn>, b: seq<Turn>)
    ensures Nudges(a + b) == Nudges(a) + Nudges(b)
  {
    if a == [] {
      assert a + b == b;
    } else {
      assert (a + b)[1..] == a[1..] + b;
      NudgesAdd(a[1..], b);
    }
  }

  lemma {:induction false} OneResultPerCall(tools: (nat, ToolName) -> Outcome, k: nat, calls: seq<Call>,
                                            replied: bool, n: nat)
    requires n <= |calls|
    ensures var rs := Executed(tools, k, calls, replied, n).results;
      |rs| == n && forall i :: 0 <= i < n ==> rs[i].call == calls[i]
  {
    if n > 0 { OneResultPerCall(tools, k, calls, replied, n - 1); }
  }

  lemma {:induction false} ResultsAnswer(rs: seq<CallResult>)
    ensures |Results(rs)| == |rs| && Nudges(Results(rs)) == 0
    ensures forall i :: 0 <= i < |rs| ==> Results(rs)[i] == ResultOf(rs[i])
  {
    if rs != [] {
      ResultsAnswer(rs[..|rs| - 1]);
      var last := ResultOf(rs[|rs| - 1]);
      NudgesAdd(Results(rs[..|rs| - 1]), [last]);
      assert [last][1..] == [];
    }
  }

  lemma BlockIsWellFormed(calls: seq<Call>, results: seq<Turn>)
    requires calls != [] && |results| == |calls| && forall i :: 0 <= i < |calls| ==> Answers(results[i], calls[i])
    ensures WellFormed([Assistant(calls)] + results) && Nudges([Assistant(calls)] + results) == Nudges(results)
  {
    var block := [Assistant(calls)] + results;
    assert block[1..] == results && block[1 + |calls|..] == [];
  }

  lemma BatchIsWellFormed(tools: (nat, ToolName) -> Outcome, k: nat, calls: seq<Call>, replied: bool)
    requires calls != []
    ensures var block := [Assistant(calls)] + Results(ExecuteCalls(tools, k, calls, replied));
      WellFormed(block) && Nudges(block) == 0
  {
    OneResultPerCall(tools, k, calls, replied, |calls|);
    ResultsAnswer(ExecuteCalls(tools, k, calls, replied));
    BlockIsWellFormed(calls, Results(ExecuteCalls(tools, k, calls, replied)));
  }

  // ------------------------------------------------------------ over every run

  /** Usage of the first `n` model calls. */
  function UsageOf(llm: nat -> Response, n: nat): Usage {
    if n == 0 then NO_USAGE
    else if llm(n - 1).Answer? then Plus(UsageOf(llm, n - 1), llm(n - 1).usage)
    else UsageOf(llm, n - 1)
  }

  function Part(llm: nat -> Response, n: nat, part: Usage -> int): int {
    if n == 0 then 0 else Part(llm, n - 1, part) + if llm(n - 1).Answer? then part(llm(n - 1).usage) else 0
  }

  function Cost(llm: nat -> Response, n: nat): real {
    if n == 0 then 0.0 else Cost(llm, n - 1) + if llm(n - 1).Answer? then llm(n - 1).usage.cost else 0.0
  }

  /** Each part of the usage is the sum of that part over the answered calls. */
  lemma {:induction false} UsageIsSum(llm: nat -> Response, n: nat)
    ensures UsageOf(llm, n).input == Part(llm, n, (u: Usage) => u.input)
    ensures UsageOf(llm, n).output == Part(llm, n, (u: Usage) => u.output)
    ensures UsageOf(llm, n).cacheRead == Part(llm, n, (u: Usage) => u.cacheRead)
    ensures UsageOf(llm, n).cacheWrite == Part(llm, n, (u: Usage) => u.cacheWrite)
    ensures UsageOf(llm, n).cost == Cost(llm, n)
  {
    if n > 0 { UsageIsSum(llm, n - 1); }
  }

  /** The synthesis model gets the next call exactly when the tool model just ended its turn and they differ. */
  function NextModel(env: Env, models: seq<string>): string {
    if models != [] && models[|models| - 1] == env.toolModel && env.toolModel != env.synthesisModel
       && Stops(env.llm(|models| - 1))
    then env.synthesisModel else env.toolModel
  }

  ghost predicate ModelsFollow(env: Env, models: seq<string>) {
    forall i :: 0 <= i < |models| ==> models[i] == NextModel(env, models[..i])
  }

  /** The text of the call this execution served was a final answer, and came from the synthesis model. */
  predicate SentFromSynthesis(env: Env, models: seq<string>, t: Try) {
    && t.served < |models| && models[t.served] == env.synthesisModel
    && Stops(env.llm(t.served)) && |env.llm(t.served).text| >= 4
  }

  ghost predicate FallbacksFollow(env: Env, models: seq<string>, tried: seq<Try>) {
    forall t :: t in tried && t.fallback ==> SentFromSynthesis(env, models, t)
  }

  predicate TranscriptInv(s: RunState) {
    WellFormed(s.messages) && Nudges(s.messages) == (if s.nudged then 1 else 0)
  }

  ghost predicate ModelInv(env: Env, s: RunState) {
    && s.usage == UsageOf(env.llm, |s.models|)
    && ModelsFollow(env, s.models)
    && (s.phase.Going? ==> ModelFor(env, s) == NextModel(env, s.models) && !HandsOff(s.finalAction))
  }

  function ModelFor(env: Env, s: RunState): string {
    if s.escalate then env.synthesisModel else env.toolModel
  }

  /** The state between the model's answer and what is made of it. */
  function Answered(env: Env, s: RunState): RunState
    requires env.llm(|s.models|).Answer?
  {
    s.(models := s.models + [ModelFor(env, s)], escalate := false, usage := Plus(s.usage, env.llm(|s.models|).usage))
  }

  lemma AnsweredFollows(env: Env, s: RunState, model: string)
    requires ModelsFollow(env, s.models) && model == NextModel(env, s.models)
    ensures ModelsFollow(env, s.models + [model])
  {
    var models := s.models + [model];
    forall i | 0 <= i < |models| ensures models[i] == NextModel(env, models[..i]) {
      assert models[..i] == s.models[..i];
    }
    assert s.models[..|s.models|] == s.models;
  }

  lemma EndTurnModels(env: Env, s: RunState, model: string, text: string)
    requires s.models != [] && !s.escalate && s.phase.Going? && !HandsOff(s.finalAction)
    ensures var t := EndTurn(env, s, model, text);
      && t.models == s.models && t.usage == s.usage
      && (t.phase.Going? ==>
           t.escalate == (model == env.toolModel && env.synthesisModel != env.toolModel) && !HandsOff(t.finalAction))
  {
  }

  lemma AnsweredModels(env: Env, s: RunState)
    requires ModelInv(env, s) && s.phase.Going? && env.llm(|s.models|).Answer?
    ensures var u := Answered(env, s);
      && u.usage == UsageOf(env.llm, |u.models|)
      && ModelsFollow(env, u.models)
      && NextModel(env, u.models) == (
           if Stops(env.llm(|s.models|)) && ModelFor(env, s) == env.toolModel && env.synthesisModel != env.toolModel
           then env.synthesisModel else env.toolModel)
  {
    AnsweredFollows(env, s, ModelFor(env, s));
    assert UsageOf(env.llm, |s.models| + 1) == Plus(UsageOf(env.llm, |s.models|), env.llm(|s.models|).usage);
  }

  lemma IterateKeepsModels(env: Env, s: RunState)
    requires ModelInv(env, s) && s.phase.Going?
    ensures ModelInv(env, Iterate(env, s))
  {
    var model, response := ModelFor(env, s), env.llm(|s.models|);
    AnsweredFollows(env, s, model);
    if response.Answer? {
      AnsweredModels(env, s);
      EndTurnModels(env, Answered(env, s), model, response.text);
    }
  }

  lemma IterateKeepsTranscript(env: Env, s: RunState)
    requires TranscriptInv(s) && s.phase.Going?
    ensures TranscriptInv(Iterate(env, s))
  {
    var response := env.llm(|s.models|);
    if response.Answer? {
      if Stops(response) {
        NudgesAdd(s.messages, [Nudge]);
        assert [Nudge][1..] == [];
        WellFormedAppend(s.messages, [Nudge]);
      } else {
        UseToolsKeepsTranscript(env, Answered(env, s), response.calls);
      }
    }
  }

  lemma BatchAppended(env: Env, messages: seq<Turn>, k: nat, calls: seq<Call>, replied: bool)
    requires WellFormed(messages) && calls != []
    ensures var grown := messages + [Assistant(calls)] + Results(ExecuteCalls(env.tools, k, calls, replied));
      WellFormed(grown) && Nudges(grown) == Nudges(messages)
  {
    var rs := ExecuteCalls(env.tools, k, calls, replied);
    var block := [Assistant(calls)] + Results(rs);
    BatchIsWellFormed(env.tools, k, calls, replied);
    WellFormedAppend(messages, block);
    NudgesAdd(messages, block);
    assert messages + [Assistant(calls)] + Results(rs) == messages + block;
  }

  lemma UseToolsKeepsTranscript(env: Env, s: RunState, calls: seq<Call>)
    requires TranscriptInv(s) && calls != [] && s.models != []
    ensures TranscriptInv(UseTools(env, s, calls))
  {
    BatchAppended(env, s.messages, |s.tried|, calls, s.replied);
  }

  lemma {:induction false} BatchIsNoFallback(rs: seq<CallResult>, served: nat)
    ensures forall t :: t in TriesOf(rs, served) ==> !t.fallback
  {
    if rs != [] {
      OwnIsNoFallback(rs[|rs| - 1].call.name, rs[|rs| - 1].tries, served);
      BatchIsNoFallback(rs[..|rs| - 1], served);
    }
  }

  lemma {:induction false} OwnIsNoFallback(name: ToolName, tries: seq<Outcome>, served: nat)
    ensures forall t :: t in OwnTries(name, tries, served) ==> !t.fallback
  {
    if tries != [] { OwnIsNoFallback(name, tries[1..], served); }
  }

  lemma FallbacksFollowMore(env: Env, models: seq<string>, model: string, tried: seq<Try>, added: seq<Try>)
    requires FallbacksFollow(env, models, tried)
    requires forall t :: t in added && t.fallback ==> SentFromSynthesis(env, models + [model], t)
    ensures FallbacksFollow(env, models + [model], tried + added)
  {
    forall t | t in tried + added && t.fallback ensures SentFromSynthesis(env, models + [model], t) {
      assert t in tried ==> SentFromSynthesis(env, models, t);
    }
  }

  lemma IterateKeepsFallbacks(env: Env, s: RunState)
    requires FallbacksFollow(env, s.models, s.tried) && s.phase.Going?
    ensures FallbacksFollow(env, Iterate(env, s).models, Iterate(env, s).tried)
  {
    var response, model := env.llm(|s.models|), ModelFor(env, s);
    FallbacksFollowMore(env, s.models, model, s.tried, []);
    assert s.tried + [] == s.tried;
    if response.Answer? {
      if Stops(response) {
        if |response.text| >= 4 && model == env.synthesisModel {
          var sent := Try(ReplyToConversation, env.tools(|s.tried|, ReplyToConversation), |s.models|, true);
          FallbacksFollowMore(env, s.models, model, s.tried, [sent]);
        }
      } else {
        var rs := ExecuteCalls(env.tools, |s.tried|, response.calls, s.replied);
        BatchIsNoFallback(rs, |s.models|);
        FallbacksFollowMore(env, s.models, model, s.tried, TriesOf(rs, |s.models|));
      }
    }
  }

  ghost predicate Inv(env: Env, s: RunState) {
    TranscriptInv(s) && ModelInv(env, s) && FallbacksFollow(env, s.models, s.tried)
  }

  lemma {:induction false} RunKeepsInv(env: Env, n: nat)
    ensures Inv(env, Reached(env, n)) && |Reached(env, n).models| <= n
  {
    if n > 0 {
      RunKeepsInv(env, n - 1);
      var s := Reached(env, n - 1);
      if s.phase.Going? {
        IterateKeepsTranscript(env, s);
        IterateKeepsModels(env, s);
        IterateKeepsFallbacks(env, s);
        IterateCallsOnce(env, s);
      }
    }
  }

  lemma IterateCallsOnce(env: Env, s: RunState)
    ensures |Iterate(env, s).models| == |s.models| + 1
  {
  }

  /**
   * Every run makes at most eight model calls; its transcript is well formed with at most one nudge;
   * its usage is the sum over its calls; the synthesis model is asked only to redo a final answer, and
   * only its text is sent as a fallback.
   */
  lemma EveryRunIsOrderly(env: Env)
    ensures var s := Finished(env);
      && |s.models| <= MAX_TOOL_ITERATIONS
      && WellFormed(s.messages) && Nudges(s.messages) <= 1
      && s.usage == UsageOf(env.llm, |s.models|)
      && ModelsFollow(env, s.models)
      && FallbacksFollow(env, s.models, s.tried)
  {
    RunKeepsInv(env, MAX_TOOL_ITERATIONS);
  }

  /** The first action reported is the run's action, whatever later tools report. */
  lemma {:induction false} FirstActionWins(env: Env, m: nat, n: nat)
    requires m <= n && Reached(env, m).finalAction != NoAction
    ensures Reached(env, n).finalAction == Reached(env, m).finalAction
  {
    if m < n {
      FirstActionWins(env, m, n - 1);
      var s := Reached(env, n - 1);
      var response := env.llm(|s.models|);
      if s.phase.Going? && response.Answer? {
        ActionStays(s.finalAction, ExecuteCalls(env.tools, |s.tried|, response.calls, s.replied));
      }
    }
  }

  /** After handing off or closing, nothing else is asked or executed. */
  lemma NothingAfterHandOff(env: Env, m: nat, n: nat)
    requires m <= n && HandsOff(Reached(env, m).finalAction)
    ensures Reached(env, n) == Reached(env, m)
  {
    RunKeepsInv(env, m);
    EndedStays(env, m, n);
  }

  /** How a run may end without any action: the model's last text was tried as a reply, and a silent sale was nudged. */
  predicate EndsSilently(env: Env, s: RunState) {
    && s.models != [] && Stops(env.llm(|s.models| - 1))
    && (|env.llm(|s.models| - 1).text| >= 4 ==>
          s.tried != [] && s.tried[|s.tried| - 1].fallback && s.tried[|s.tried| - 1].served == |s.models| - 1)
    && (s.toolsCalled * SALES_PREP_TOOLS != {} && ReplyToConversation !in s.toolsCalled ==> s.nudged)
  }

  lemma IterateEndsSilently(env: Env, s: RunState)
    requires s.phase.Going?
    ensures var t := Iterate(env, s); t.phase.Completed? && t.finalAction == NoAction ==> EndsSilently(env, t)
  {
  }

  /**
   * A run that ends its turn without an action has tried to send the text it ended with, and has been
   * nudged if it had looked up an offer and never replied.
   */
  lemma {:induction false} NoSilenceWithoutNudge(env: Env, n: nat)
    ensures var s := Reached(env, n); s.phase.Completed? && s.finalAction == NoAction ==> EndsSilently(env, s)
  {
    if n > 0 {
      NoSilenceWithoutNudge(env, n - 1);
      if Reached(env, n - 1).phase.Going? { IterateEndsSilently(env, Reached(env, n - 1)); }
    }
  }

  /** The last execution sent the text of the last model call. */
  predicate SendsLast(s: RunState) {
    s.tried != [] && s.tried[|s.tried| - 1].fallback && s.tried[|s.tried| - 1].served == |s.models| - 1
  }

  /** The last model call ended its turn with a text worth sending, and nothing has come of the run so far. */
  predicate EndsWithText(env: Env, s: RunState) {
    && s.models != [] && Stops(env.llm(|s.models| - 1)) && |env.llm(|s.models| - 1).text| >= 4
    && s.finalAction == NoAction && !s.phase.Crashed?
  }

  /** The last call went to the tool model although the synthesis model should have the last word. */
  predicate AwaitsSynthesis(env: Env, s: RunState) {
    s.models != [] && s.models[|s.models| - 1] == env.toolModel && env.toolModel != env.synthesisModel
  }

  ghost predicate TextInv(env: Env, s: RunState) {
    EndsWithText(env, s) ==> if AwaitsSynthesis(env, s) then s.phase.Going? else SendsLast(s)
  }

  lemma EndTurnKeepsText(env: Env, u: RunState, text: string)
    requires u.models != [] && u.phase.Going? && env.llm(|u.models| - 1).Answer?
    requires text == env.llm(|u.models| - 1).text
    ensures TextInv(env, EndTurn(env, u, u.models[|u.models| - 1], text))
  {
  }

  lemma UseToolsKeepsText(env: Env, u: RunState, calls: seq<Call>)
    requires u.models != [] && !Stops(env.llm(|u.models| - 1))
    ensures TextInv(env, UseTools(env, u, calls))
  {
  }

  lemma IterateKeepsText(env: Env, s: RunState)
    requires s.phase.Going?
    ensures TextInv(env, Iterate(env, s))
  {
    var response := env.llm(|s.models|);
    if response.Answer? {
      EndTurnKeepsText(env, Answered(env, s), response.text);
      if !Stops(response) { UseToolsKeepsText(env, Answered(env, s), response.calls); }
    }
  }

  lemma {:induction false} RunKeepsText(env: Env, n: nat)
    ensures TextInv(env, Reached(env, n))
    ensures Reached(env, n).phase.Going? ==> |Reached(env, n).models| == n
  {
    if n > 0 {
      RunKeepsText(env, n - 1);
      if Reached(env, n - 1).phase.Going? {
        IterateKeepsText(env, Reached(env, n - 1));
        IterateCallsOnce(env, Reached(env, n - 1));
      }
    }
  }

  /** A fallback serves a call of the synthesis model, so a call that still awaits it has not been served. */
  lemma AwaitingIsUnsent(env: Env, s: RunState)
    requires FallbacksFollow(env, s.models, s.tried) && AwaitsSynthesis(env, s)
    ensures !SendsLast(s)
  {
    assert s.tried != [] && s.tried[|s.tried| - 1].fallback ==>
      SentFromSynthesis(env, s.models, s.tried[|s.tried| - 1]);
  }

  lemma SentIffServed(env: Env, s: RunState, n: nat)
    requires TextInv(env, s) && FallbacksFollow(env, s.models, s.tried) && EndsWithText(env, s)
    requires s.phase.Going? ==> |s.models| == n
    ensures SendsLast(s) <==> !(|s.models| == n && AwaitsSynthesis(env, s))
  {
    if AwaitsSynthesis(env, s) { AwaitingIsUnsent(env, s); }
  }

  /**
   * Of the runs that complete without an action on a final text, exactly those send it whose last call
   * was not the eighth one, made to the tool model while the synthesis model is another.
   */
  lemma FinalTextIsSentIff(env: Env)
    requires var f := Finished(env); f.phase.Completed? && EndsWithText(env, f)
    ensures var f := Finished(env);
      SendsLast(f) <==> !(|f.models| == MAX_TOOL_ITERATIONS && AwaitsSynthesis(env, f))
  {
    var s := Reached(env, MAX_TOOL_ITERATIONS);
    assert Finished(env) == s || Finished(env) == s.(phase := Completed);
    RunKeepsText(env, MAX_TOOL_ITERATIONS);
    RunKeepsInv(env, MAX_TOOL_ITERATIONS);
    SentIffServed(env, s, MAX_TOOL_ITERATIONS);
  }

  /** With one model for both, a final text is never lost. */
  lemma OneModelLosesNothing(env: Env)
    requires env.toolModel == env.synthesisModel
    requires var f := Finished(env); f.phase.Completed? && EndsWithText(env, f)
    ensures SendsLast(Finished(env))
  {
    FinalTextIsSentIff(env);
  }

  /** A final answer the tool model gives with the eighth call is never redone and never sent. */
  lemma EighthAnswerIsDropped(env: Env)
    requires env.toolModel != env.synthesisModel && env.llm(7).Answer? && Stops(env.llm(7))
    requires var s := Reached(env, 7); s.phase.Going? && !s.escalate && |s.models| == 7
    ensures var s, f := Reached(env, 7), Finished(env);
      f.phase.Completed? && f.tried == s.tried && f.finalAction == s.finalAction && f.messages == s.messages
  {
    assert Reached(env, 8) == Iterate(env, Reached(env, 7));
  }

  /** Seven turns of tool calls, then a text. */
  function LateTalker(): nat -> Response {
    n => if n < 7 then Answer(false, ONE_CALL, "", NO_USAGE) else Answer(true, [], "text", NO_USAGE)
  }

  const NOTHING := Returned(None, None, None, false)
  const ONE_CALL := [Call("c", Other("t"))]

  lemma OneToolCall(k: nat, served: nat)
    ensures var rs := ExecuteCalls(Always(NOTHING), k, ONE_CALL, false);
      && TriesOf(rs, served) == [Try(Other("t"), NOTHING, served, false)]
      && FirstAction(NoAction, rs) == NoAction && !AnySucceeded(rs)
  {
    var r := CallResult(ONE_CALL[0], [NOTHING], None);
    assert Executed(Always(NOTHING), k, ONE_CALL, false, 0) == Batch([], k, false);
    assert ExecuteCalls(Always(NOTHING), k, ONE_CALL, false) == [] + [r];
    OneMore([], r, NoAction, served);
    assert ([] + [r])[..0] == [] && [NOTHING][1..] == [];
    SingleTry(Other("t"), NOTHING, served);
  }

  /** Only tools so far, and no action. */
  ghost predicate OnlyTools(s: RunState, n: nat) {
    && s.phase.Going? && !s.escalate && |s.models| == n && s.finalAction == NoAction && !s.replied
    && forall t :: t in s.tried ==> !t.fallback && t.name != ReplyToConversation
  }

  lemma OneMoreToolTurn(env: Env, s: RunState, n: nat)
    requires env.llm(n) == Answer(false, ONE_CALL, "", NO_USAGE) && env.tools == Always(NOTHING) && OnlyTools(s, n)
    ensures OnlyTools(Iterate(env, s), n + 1)
  {
    var u := Answered(env, s);
    assert Iterate(env, s) == UseTools(env, u, ONE_CALL);
    UseOneTool(env, u, n + 1);
  }

  lemma UseOneTool(env: Env, u: RunState, n: nat)
    requires env.tools == Always(NOTHING) && n > 0 && OnlyTools(u, n)
    ensures OnlyTools(UseTools(env, u, ONE_CALL), n)
  {
    OneToolCall(|u.tried|, n - 1);
    assert UseTools(env, u, ONE_CALL).tried == u.tried + [Try(Other("t"), NOTHING, n - 1, false)];
  }

  lemma {:induction false} LateTalkerUsesTools(env: Env, n: nat)
    requires env.llm == LateTalker() && env.tools == Always(NOTHING) && n <= 7
    ensures OnlyTools(Reached(env, n), n)
  {
    if n > 0 {
      LateTalkerUsesTools(env, n - 1);
      OneMoreToolTurn(env, Reached(env, n - 1), n - 1);
    }
  }

  /** So a run can end with an answer in hand and the customer hearing nothing. */
  lemma AnswerCanBeLost(tool: string, synthesis: string)
    requires tool != synthesis
    ensures var f := Finished(Env(LateTalker(), Always(NOTHING), tool, synthesis));
      f.phase.Completed? && EndsWithText(Env(LateTalker(), Always(NOTHING), tool, synthesis), f)
      && forall t :: t in f.tried ==> !t.fallback && t.name != ReplyToConversation
  {
    var env := Env(LateTalker(), Always(NOTHING), tool, synthesis);
    LateTalkerUsesTools(env, 7);
    EighthAnswerIsDropped(env);
    assert Reached(env, 8) == Iterate(env, Reached(env, 7));
    IterateCallsOnce(env, Reached(env, 7));
  }

  // ------------------------------------------------------------------ chaining

  /** What the run at one depth finds, and whether another agent is active once it has delegated. */
  datatype Link = NoAgent | Link(env: Env, handsOver: bool)

  function Chain(links: nat -> Link, depth: nat): seq<RunState>
    requires depth <= MAX_CHAIN_DEPTH
    decreases MAX_CHAIN_DEPTH - depth
  {
    if links(depth).NoAgent? then []
    else
      var s := Finished(links(depth).env);
      if s.phase.Completed? && s.finalAction == Delegated && depth < MAX_CHAIN_DEPTH && links(depth).handsOver
      then [s] + Chain(links, depth + 1) else [s]
  }

  /** The run completed by delegating, and there is an agent to go on, within three hops. */
  predicate GoesOn(s: RunState, link: Link, depth: nat) {
    link.Link? && s.phase.Completed? && s.finalAction == Delegated && link.handsOver && depth < 3
  }

  lemma ChainStarts(links: nat -> Link, depth: nat)
    requires depth <= MAX_CHAIN_DEPTH && links(depth).Link?
    ensures var s := Finished(links(depth).env);
      Chain(links, depth) == [s] + if GoesOn(s, links(depth), depth) then Chain(links, depth + 1) else []
  {
    var s := Finished(links(depth).env);
    assert [s] + [] == [s];
  }

  /** Each run of the chain is that of its agent, and another follows exactly after one that goes on. */
  lemma {:induction false} ChainFollows(links: nat -> Link, depth: nat, i: nat)
    requires depth <= MAX_CHAIN_DEPTH && i < |Chain(links, depth)|
    ensures var runs := Chain(links, depth);
      && links(depth + i).Link? && runs[i] == Finished(links(depth + i).env)
      && (i + 1 < |runs| <==> GoesOn(runs[i], links(depth + i), depth + i) && links(depth + i + 1).Link?)
    decreases i
  {
    ChainStarts(links, depth);
    if i > 0 {
      ChainFollows(links, depth + 1, i - 1);
    } else if GoesOn(Finished(links(depth).env), links(depth), depth) && links(depth + 1).Link? {
      ChainStarts(links, depth + 1);
    }
  }

  function TotalCalls(runs: seq<RunState>): nat {
    if runs == [] then 0 else |runs[0].models| + TotalCalls(runs[1..])
  }

  function TotalDeliveries(runs: seq<RunState>): nat {
    if runs == [] then 0 else Deliveries(runs[0].tried) + TotalDeliveries(runs[1..])
  }

  /** One incoming message causes at most (3+1)*8 model calls over all chained runs. */
  lemma {:induction false} ChainIsBounded(links: nat -> Link, depth: nat)
    requires depth <= MAX_CHAIN_DEPTH
    ensures |Chain(links, depth)| <= MAX_CHAIN_DEPTH - depth + 1
    ensures TotalCalls(Chain(links, depth)) <= (MAX_CHAIN_DEPTH - depth + 1) * MAX_TOOL_ITERATIONS
    decreases MAX_CHAIN_DEPTH - depth
  {
    if links(depth).Link? {
      var s := Finished(links(depth).env);
      EveryRunIsOrderly(links(depth).env);
      assert [s][1..] == [];
      if depth < MAX_CHAIN_DEPTH {
        ChainIsBounded(links, depth + 1);
        assert ([s] + Chain(links, depth + 1))[1..] == Chain(links, depth + 1);
      }
    }
  }

  ghost predicate ContractHolds(link: Link) {
    link.Link? ==> ReplyContract(link.env)
  }

  /** And at most one reply from each agent of the chain. */
  lemma {:induction false} ChainRepliesAreBounded(links: nat -> Link, depth: nat)
    requires depth <= MAX_CHAIN_DEPTH && forall d :: ContractHolds(links(d))
    ensures TotalDeliveries(Chain(links, depth)) <= MAX_CHAIN_DEPTH - depth + 1
    decreases MAX_CHAIN_DEPTH - depth
  {
    if links(depth).Link? {
      var s := Finished(links(depth).env);
      assert ContractHolds(links(depth));
      AtMostOneReply(links(depth).env);
      assert [s][1..] == [];
      if depth < MAX_CHAIN_DEPTH {
        ChainRepliesAreBounded(links, depth + 1);
        assert ([s] + Chain(links, depth + 1))[1..] == Chain(links, depth + 1);
      }
    }
  }

  // ------------------------------------------------------------------ the loops

  /** Runs the calls of one turn in order; a second reply is answered without running it. */
  method ExecuteToolCalls(env: Env, done: nat, calls: seq<Call>, alreadyReplied: bool)
    returns (results: seq<CallResult>)
    ensures results == ExecuteCalls(env.tools, done, calls, alreadyReplied)
  {
    results := [];
    var repliedInThisBatch := false;
    var k: nat := done;
    for i := 0 to |calls|
      invariant Batch(results, k, alreadyReplied || repliedInThisBatch) ==
        Executed(env.tools, done, calls, alreadyReplied, i)
    {
      var call := calls[i];
      if call.name == ReplyToConversation && (alreadyReplied || repliedInThisBatch) {
        results := results + [CallResult(call, [], None)];
        continue;
      }
      var r := ExecuteWithRetry(env, k, call);
      k := k + |r.tries|;
      results := results + [r];
      if Succeeded(r) { repliedInThisBatch := true; }
    }
  }

  /** At most two executions; the second only after a failure that looks temporary. */
  method ExecuteWithRetry(env: Env, k: nat, call: Call) returns (r: CallResult)
    ensures r == Execute(env.tools, k, call, false)
  {
    var tries, action := [], None;
    var attempts := 0;
    while attempts < 2
      invariant attempts == |tries| <= 2
      invariant attempts == 0 ==> action == None
      invariant attempts > 0 ==> tries[0] == env.tools(k, call.name) && action == ActionOf(tries)
      invariant attempts == 1 ==> IsFailure(tries[0]) && IsTransient(tries[0])
      invariant attempts == 2 ==> tries == Settle(env.tools, k, call.name)
    {
      var o := env.tools(k + attempts, call.name);
      tries := tries + [o];
      attempts := attempts + 1;
      if o.Returned? { action := o.action; }
      if !IsFailure(o) { break; }
      if attempts >= 2 { break; }
      if !IsTransient(o) { break; }
    }
    r := CallResult(call, tries, action);
  }

  /** One turn of the loop: ask the model, then end the turn or run its tools. */
  method RunIteration(env: Env, s: RunState) returns (t: RunState)
    requires s.phase.Going?
    ensures t == Iterate(env, s)
  {
    var model := if s.escalate then env.synthesisModel else env.toolModel;
    var response := env.llm(|s.models|);
    t := s.(models := s.models + [model], escalate := false);
    if response.Fails? {
      t := t.(phase := Crashed);
      return;
    }
    t := t.(usage := Plus(t.usage, response.usage));
    if response.stop || response.calls == [] {
      t := EndOfTurn(env, t, model, response.text);
    } else {
      t := UseResults(env, t, response.calls);
    }
  }

  lemma FinishedAt(env: Env, n: nat)
    requires n <= MAX_TOOL_ITERATIONS && !Reached(env, n).phase.Going?
    ensures Finished(env) == Reached(env, n)
  {
    EndedStays(env, n, MAX_TOOL_ITERATIONS);
  }

  /** The whole run; what it leaves is well formed and accounted for. */
  method RunAgent(env: Env) returns (s: RunState)
    ensures s == Finished(env)
    ensures WellFormed(s.messages) && s.usage == UsageOf(env.llm, |s.models|)
    ensures Account.Accounts(s.messages, s.tried, s.finalAction) && Account.Real(env, s.tried)
    ensures Account.Questions(s.messages) == Account.Asked(env.llm, |s.models|)
  {
    s := RunTurns(env);
    EveryRunIsOrderly(env);
    Account.EveryRunIsAccounted(env);
  }

  method RunTurns(env: Env) returns (s: RunState)
    ensures s == Finished(env)
  {
    s := START;
    for iterationCount := 0 to MAX_TOOL_ITERATIONS
      invariant s == Reached(env, iterationCount) && s.phase.Going?
    {
      s := RunIteration(env, s);
      assert s == Reached(env, iterationCount + 1);
      if !s.phase.Going? {
        FinishedAt(env, iterationCount + 1);
        return;
      }
    }
    s := s.(phase := Completed);
  }

  /** The model ended its turn: ask the synthesis model instead, send the text, or nudge once. */
  method EndOfTurn(env: Env, s: RunState, model: string, text: string) returns (t: RunState)
    requires s.models != []
    ensures t == EndTurn(env, s, model, text)
  {
    t := s;
    if model == env.toolModel && env.synthesisModel != env.toolModel {
      t := t.(escalate := true);
      return;
    }
    if |text| >= 4 && t.finalAction == NoAction {
      var o := env.tools(|t.tried|, ReplyToConversation);
      t := t.(tried := t.tried + [Try(ReplyToConversation, o, |t.models| - 1, true)]);
      if o.Returned? && o.action.Some? { t := t.(finalAction := o.action.value); }
    }
    var calledSalesPrep := t.toolsCalled * SALES_PREP_TOOLS != {};
    var neverReplied := ReplyToConversation !in t.toolsCalled;
    if calledSalesPrep && neverReplied && t.finalAction == NoAction && !t.nudged {
      t := t.(nudged := true, messages := t.messages + [Nudge]);
      return;
    }
    t := t.(phase := Completed);
  }

  /** Runs the calls of one assistant turn and takes in what they gave, one result at a time. */
  method UseResults(env: Env, s: RunState, calls: seq<Call>) returns (t: RunState)
    requires s.models != [] && s.phase.Going?
    ensures t == UseTools(env, s, calls)
  {
    var results := ExecuteToolCalls(env, |s.tried|, calls, s.replied);
    var pushed, names, finalAction, replied := TakeResults(results, s.finalAction, s.replied);
    t := s.(messages := s.messages + [Assistant(calls)] + pushed, tried := s.tried + TriesOf(results, |s.models| - 1),
            toolsCalled := s.toolsCalled + names, finalAction := finalAction, replied := replied,
            phase := if HandsOff(finalAction) then Completed else Going);
  }

  method TakeResults(results: seq<CallResult>, action: FinalAction, alreadyReplied: bool)
    returns (pushed: seq<Turn>, names: set<ToolName>, finalAction: FinalAction, replied: bool)
    ensures pushed == Results(results) && names == Names(results)
    ensures finalAction == FirstAction(action, results) && replied == (alreadyReplied || AnySucceeded(results))
  {
    pushed, names, finalAction, replied := [], {}, action, alreadyReplied;
    for i := 0 to |results|
      invariant pushed == Results(results[..i]) && names == Names(results[..i])
      invariant finalAction == FirstAction(action, results[..i])
      invariant replied == (alreadyReplied || AnySucceeded(results[..i]))
    {
      var r := results[i];
      assert results[..i + 1][..i] == results[..i];
      names := names + {r.call.name};
      pushed := pushed + [ResultOf(r)];
      if r.action.Some? && finalAction == NoAction { finalAction := r.action.value; }
      if Succeeded(r) { replied := true; }
    }
    assert results[..|results|] == results;
  }
}

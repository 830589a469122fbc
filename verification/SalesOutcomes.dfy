/**
 * What the recovery machine's two services do to a card, case by case, and where
 * a silent customer's card ends up.
 */
module SalesOutcomes {
  import opened Common
  import opened CardOrder
  import opened CardMoves
  import Boards = Pipelines
  import opened SalesRecovery

  /** A card of the contact in the funnel records a message less than a cooldown ago. */
  ghost predicate Cooling(w: World, cfg: Config, contact: Id) {
    exists id :: id in w.board.cards && Mentions(w.board.cards[id], cfg, contact)
      && w.now as real - w.board.cards[id].outreach.value.lastSentAt as real < cfg.cooldownMs
  }

  predicate Mentions(c: Card, cfg: Config, contact: Id) {
    c.org == cfg.org && c.pipeline == cfg.pipeline && c.contact == Some(contact) && c.outreach.Some?
  }

  lemma CoolingIsRecent(w: World, cfg: Config, contact: Id)
    ensures Cooling(w, cfg, contact) <==> Recent(w.board.cards, cfg, contact, w.now)
  {
    forall id | id in w.board.cards && w.board.cards[id].outreach.Some?
      ensures Mentions(w.board.cards[id], cfg, contact) <==> OfContact(w.board.cards[id], cfg, contact)
    {
    }
  }

  /** Only the cards differ, and the record of who was dragged back. */
  predicate SameButCards(w: World, v: World) {
    v.sent == w.sent && v.now == w.now && v.board == w.board.(cards := v.board.cards)
  }

  /** A funnel card is put behind the last card of the stage; any other stays where it is. */
  ghost predicate MovedTo(w: World, v: World, cfg: Config, id: Id, key: StageKey)
    requires ValidConfig(cfg) && FunnelStages(w.board, cfg)
  {
    && SameButCards(w, v)
    && if !InFunnel(w, cfg, id) then v.board == w.board
       else
         var stage := cfg.stageOf[key];
         exists n :: IsNextIndex(w.board.cards, cfg.pipeline, stage, n)
           && MovesOne(w.board.cards, v.board.cards, id, stage, w.board.stages[stage].kind, n, w.now)
  }

  lemma ToKeyMoves(w: World, cfg: Config, id: Id, key: StageKey)
    requires ValidConfig(cfg) && FunnelStages(w.board, cfg) && id in w.board.cards
    ensures MovedTo(w, ToKey(w, cfg, id, key), cfg, id, key)
  {
    var stage := cfg.stageOf[key];
    assert key in cfg.stageOf && Boards.KnownStage(w.board.stages, cfg.pipeline, stage);
    var n := NextIndex(w.board.cards, cfg.pipeline, stage);
    if InFunnel(w, cfg, id) {
      MovedMovesOne(w.board.cards, id, stage, w.board.stages[stage].kind, n, w.now);
    }
  }

  /** The card's record, and the message if one went out. */
  function Noted(w: World, id: Id, c: Card, sends: bool): World
    requires c.contact.Some?
  {
    w.(board := w.board.(cards := w.board.cards[id := c]),
       sent := if sends then w.sent + [Message(id, c.contact.value, w.now)] else w.sent)
  }

  function AttemptsOf(c: Card): int {
    match c.outreach case Some(o) => o.attempts case None => 1
  }

  /** The contact can be written to, is not cooling, and sending did not throw. */
  ghost predicate FollowsUp(w: World, cfg: Config, c: Card, channel: bool, reachable: bool, delivery: Delivery) {
    c.contact.Some? && channel && reachable && delivery != Threw && !Cooling(w, cfg, c.contact.value)
  }

  /** The follow-up counts an attempt, and is a message if the channel queued it. */
  function FollowUpNoted(w: World, id: Id, c: Card, delivery: Delivery): World
    requires c.contact.Some?
  {
    Noted(w, id, c.(outreach := Some(Outreach(AttemptsOf(c) + 1, w.now))), delivery == Queued)
  }

  /** At the attempt limit an open card goes to the lost stage and nothing is sent. */
  lemma EscalationLoses(w: World, cfg: Config, id: Id, channel: bool, reachable: bool, delivery: Delivery)
    requires ValidConfig(cfg) && FunnelStages(w.board, cfg) && id in w.board.cards && w.board.cards[id].status == Open
    requires AttemptsOf(w.board.cards[id]) as real >= cfg.maxAttempts
    ensures MovedTo(w, Next(w, cfg, Escalates(id, channel, reachable, delivery)), cfg, id, LostKey)
  {
    ToKeyMoves(w, cfg, id, LostKey);
  }

  /** Below the limit it goes to the follow-up stage, after the follow-up if there is one. */
  lemma EscalationFollowsUp(w: World, cfg: Config, id: Id, channel: bool, reachable: bool, delivery: Delivery)
    requires ValidConfig(cfg) && FunnelStages(w.board, cfg) && id in w.board.cards && w.board.cards[id].status == Open
    requires (AttemptsOf(w.board.cards[id]) as real) < cfg.maxAttempts
    ensures var v, c := Next(w, cfg, Escalates(id, channel, reachable, delivery)), w.board.cards[id];
      if FollowsUp(w, cfg, c, channel, reachable, delivery)
      then MovedTo(FollowUpNoted(w, id, c, delivery), v, cfg, id, FollowUp)
      else MovedTo(w, v, cfg, id, FollowUp)
  {
    var c := w.board.cards[id];
    ToKeyMoves(w, cfg, id, FollowUp);
    if c.contact.Some? {
      CoolingIsRecent(w, cfg, c.contact.value);
      if FollowsUp(w, cfg, c, channel, reachable, delivery) {
        assert FollowedUp(w, id, delivery) == FollowUpNoted(w, id, c, delivery);
        ToKeyMoves(FollowUpNoted(w, id, c, delivery), cfg, id, FollowUp);
      }
    }
  }

  /** A card that is closed, or not there, is left alone. */
  lemma EscalationSkips(w: World, cfg: Config, id: Id, channel: bool, reachable: bool, delivery: Delivery)
    requires ValidConfig(cfg) && (id !in w.board.cards || w.board.cards[id].status != Open)
    ensures Next(w, cfg, Escalates(id, channel, reachable, delivery)) == w
  {
  }

  /**
   * An opener: for an open card in Oportunidade whose contact can be written to and is not cooling. If the
   * channel takes it, it is attempt one and the card moves on; the conversation is linked either way.
   */
  lemma DispatchGives(w: World, cfg: Config, id: Id, channel: bool, reachable: bool, conversation: Id, delivered: bool)
    requires ValidConfig(cfg) && FunnelStages(w.board, cfg)
    ensures var v := Next(w, cfg, Dispatches(id, channel, reachable, conversation, delivered));
      if channel && reachable && id in w.board.cards
         && var c := w.board.cards[id];
            c.status == Open && c.org == cfg.org && c.contact.Some? && c.stage == cfg.stageOf[Opportunity]
            && !Cooling(w, cfg, c.contact.value)
      then
        var linked := w.board.cards[id].(conversation := Some(conversation));
        if delivered then MovedTo(Noted(w, id, linked.(outreach := Some(Outreach(1, w.now))), true), v,
                                  cfg, id, ContactAttempt)
        else v == Noted(w, id, linked, false)
      else v == w
  {
    if id in w.board.cards && w.board.cards[id].contact.Some? {
      CoolingIsRecent(w, cfg, w.board.cards[id].contact.value);
      var linked := w.board.cards[id].(conversation := Some(conversation));
      ToKeyMoves(Noted(w, id, linked.(outreach := Some(Outreach(1, w.now))), true), cfg, id, ContactAttempt);
    }
  }

  // ------------------------------------------------------- patience runs out

  /** A funnel card that may be followed up, after `attempts` messages. */
  ghost predicate Waits(w: World, cfg: Config, id: Id, attempts: int) {
    && FunnelStages(w.board, cfg) && InFunnel(w, cfg, id)
    && w.board.cards[id].status == Open && w.board.cards[id].contact.Some?
    && Attempts(w.board.cards[id]) == attempts
    && forall x :: x in w.board.cards && w.board.cards[x].outreach.Some? ==>
         w.board.cards[x].outreach.value.lastSentAt <= w.now
  }

  /** A cooldown passes and the card is escalated. */
  function Round(id: Id, ms: nat): seq<Step> {
    [Tick(ms), Escalates(id, true, true, Queued)]
  }

  lemma RoundRuns(w: World, cfg: Config, id: Id, ms: nat)
    requires ValidConfig(cfg)
    ensures Run(w, cfg, Round(id, ms)) ==
      Next(w.(now := w.now + ms), cfg, Escalates(id, true, true, Queued))
  {
    var escalate := Escalates(id, true, true, Queued);
    RunCons(w, cfg, Tick(ms), [escalate]);
    RunCons(w.(now := w.now + ms), cfg, escalate, []);
    assert [Tick(ms)] + [escalate] == Round(id, ms) && [escalate] + [] == [escalate];
  }

  lemma NobodyIsCooling(w: World, cfg: Config, id: Id, attempts: int, ms: nat, contact: Id)
    requires Waits(w, cfg, id, attempts) && ms as real >= cfg.cooldownMs
    ensures !Cooling(w.(now := w.now + ms), cfg, contact)
  {
  }

  /** Below the limit a round sends one message, counts it, and leaves the card waiting. */
  lemma RoundSends(w: World, cfg: Config, id: Id, attempts: int, ms: nat)
    requires ValidConfig(cfg) && Waits(w, cfg, id, attempts) && ms as real >= cfg.cooldownMs
    requires attempts as real < cfg.maxAttempts && w.board.stages[cfg.stageOf[FollowUp]].kind.NormalStage?
    ensures var v := Run(w, cfg, Round(id, ms));
      && Waits(v, cfg, id, attempts + 1) && v.board.stages == w.board.stages
      && |v.sent| == |w.sent| + 1
      && v.sent[|w.sent|] == Message(id, w.board.cards[id].contact.value, w.now + ms)
  {
    var later := w.(now := w.now + ms);
    RoundRuns(w, cfg, id, ms);
    NobodyIsCooling(w, cfg, id, attempts, ms, w.board.cards[id].contact.value);
    EscalationFollowsUp(later, cfg, id, true, true, Queued);
  }

  /** At the limit a round sends nothing and loses the card. */
  lemma RoundLoses(w: World, cfg: Config, id: Id, attempts: int, ms: nat)
    requires ValidConfig(cfg) && Waits(w, cfg, id, attempts) && attempts as real >= cfg.maxAttempts
    requires w.board.stages[cfg.stageOf[LostKey]].kind.LostStage?
    ensures var v := Run(w, cfg, Round(id, ms));
      && id in v.board.cards && v.board.cards[id].stage == cfg.stageOf[LostKey] && v.board.cards[id].status == Lost
      && v.sent == w.sent
  {
    var later := w.(now := w.now + ms);
    RoundRuns(w, cfg, id, ms);
    EscalationLoses(later, cfg, id, true, true, Queued);
    var stage := cfg.stageOf[LostKey];
    NextIndexTops(w.board.cards, cfg.pipeline, stage, NextIndex(w.board.cards, cfg.pipeline, stage));
  }

  function Rounds(id: Id, ms: nat, n: nat): seq<Step> {
    if n == 0 then [] else Round(id, ms) + Rounds(id, ms, n - 1)
  }

  lemma {:induction false} RunAppends(w: World, cfg: Config, a: seq<Step>, b: seq<Step>)
    requires ValidConfig(cfg)
    ensures Run(w, cfg, a + b) == Run(Run(w, cfg, a), cfg, b)
    decreases |a|
  {
    if a == [] {
      assert a + b == b;
    } else {
      assert (a + b)[1..] == a[1..] + b;
      RunAppends(Next(w, cfg, a[0]), cfg, a[1..], b);
    }
  }

  lemma {:induction false} RoundsSend(w: World, cfg: Config, id: Id, attempts: int, ms: nat, n: nat)
    requires ValidConfig(cfg) && Waits(w, cfg, id, attempts) && ms as real >= cfg.cooldownMs
    requires n > 0 ==> (attempts + n - 1) as real < cfg.maxAttempts
    requires w.board.stages[cfg.stageOf[FollowUp]].kind.NormalStage?
    ensures var v := Run(w, cfg, Rounds(id, ms, n));
      Waits(v, cfg, id, attempts + n) && v.board.stages == w.board.stages && |v.sent| == |w.sent| + n
    decreases n
  {
    if n > 0 {
      RunAppends(w, cfg, Round(id, ms), Rounds(id, ms, n - 1));
      RoundSends(w, cfg, id, attempts, ms);
      RoundsSend(Run(w, cfg, Round(id, ms)), cfg, id, attempts + 1, ms, n - 1);
    }
  }

  /**
   * A card that is escalated once a cooldown and never answered gets exactly as many follow-ups as bring its
   * attempts to the limit, and with the next escalation is lost.
   */
  lemma PatienceRunsOut(w: World, cfg: Config, id: Id, attempts: int, ms: nat, n: nat)
    requires ValidConfig(cfg) && Waits(w, cfg, id, attempts) && ms as real >= cfg.cooldownMs
    requires n > 0 ==> (attempts + n - 1) as real < cfg.maxAttempts
    requires (attempts + n) as real >= cfg.maxAttempts
    requires w.board.stages[cfg.stageOf[FollowUp]].kind.NormalStage?
    requires w.board.stages[cfg.stageOf[LostKey]].kind.LostStage?
    ensures var v := Run(w, cfg, Rounds(id, ms, n) + Round(id, ms));
      && id in v.board.cards && v.board.cards[id].stage == cfg.stageOf[LostKey] && v.board.cards[id].status == Lost
      && |v.sent| == |w.sent| + n
  {
    RunAppends(w, cfg, Rounds(id, ms, n), Round(id, ms));
    RoundsSend(w, cfg, id, attempts, ms, n);
    RoundLoses(Run(w, cfg, Rounds(id, ms, n)), cfg, id, attempts + n, ms);
  }
}

/**
 * Sales recovery on top of the kanban board: cold outreach, follow-ups and the
 * moves they cause. A world is the board, the clock, the messages handed to the
 * outbound queue so far, and the cards that were dragged back into Oportunidade.
 */
module SalesRecovery {
  import opened Common
  import opened CardOrder
  import opened CardMoves
  import opened Pipelines

  datatype StageKey = Opportunity | ContactAttempt | InContact | FollowUp | LostKey | WonKey | Refunded

  /** Cooldown in milliseconds and the attempt limit are any positive numbers. */
  datatype Config = Config(org: Id, pipeline: Id, stageOf: map<StageKey, Id>, cooldownMs: real, maxAttempts: real)

  ghost predicate ValidConfig(cfg: Config) {
    && (forall k: StageKey :: k in cfg.stageOf)
    && (forall j: StageKey, k: StageKey :: cfg.stageOf[j] == cfg.stageOf[k] ==> j == k)
    && cfg.cooldownMs > 0.0 && cfg.maxAttempts > 0.0
  }

  datatype Message = Message(card: Id, contact: Id, at: int)

  datatype World = World(board: Board, now: int, sent: seq<Message>, reopened: set<Id>)

  /** How handing a follow-up to the channel went: queued, declined, or threw. */
  datatype Delivery = Queued | Declined | Threw

  datatype Step =
    | Tick(ms: nat)
    | Creates(id: Id, card: Card)
    | Drags(id: Id, toStage: Id, toIndex: int)
    | Dispatches(id: Id, channel: bool, reachable: bool, conversation: Id, delivered: bool)
    | Escalates(id: Id, channel: bool, reachable: bool, delivery: Delivery)
    | MovesToKey(id: Id, key: StageKey)
    | RuleAdds(id: Id, card: Card)
    | RuleMoves(id: Id, toStage: Id)
    | Relinks(id: Id, contact: Option<Id>)
    | Deletes(id: Id)

  // ------------------------------------------------------------------ steps

  predicate OfContact(c: Card, cfg: Config, contact: Id) {
    c.org == cfg.org && c.pipeline == cfg.pipeline && c.contact == Some(contact)
  }

  /** Some card of the contact records a message inside the cooldown window. */
  predicate Recent(cards: Cards, cfg: Config, contact: Id, now: int) {
    exists id :: id in cards && OfContact(cards[id], cfg, contact) && cards[id].outreach.Some?
      && cards[id].outreach.value.lastSentAt as real > now as real - cfg.cooldownMs
  }

  /** Cards that enter Oportunidade from elsewhere by this move. */
  function Reopens(w: World, cfg: Config, id: Id, toStage: Id): set<Id>
    requires Opportunity in cfg.stageOf
  {
    if id in w.board.cards && toStage == cfg.stageOf[Opportunity] && w.board.cards[id].stage != toStage
    then {id} else {}
  }

  ghost function Place(w: World, cfg: Config, id: Id, toStage: Id, toIndex: int): World
    requires ValidConfig(cfg)
  {
    var move := Move(id, toStage, toIndex, w.now);
    if !Legal(w.board, move) then w
    else w.(board := Apply(w.board, move), reopened := w.reopened + Reopens(w, cfg, id, toStage))
  }

  ghost function ToKey(w: World, cfg: Config, id: Id, key: StageKey): World
    requires ValidConfig(cfg)
  {
    if id !in w.board.cards || w.board.cards[id].org != cfg.org then w
    else Place(w, cfg, id, cfg.stageOf[key], NextIndex(w.board.cards, cfg.pipeline, cfg.stageOf[key]))
  }

  function WithCard(w: World, id: Id, c: Card): World {
    w.(board := w.board.(cards := w.board.cards[id := c]))
  }

  predicate MayDispatch(w: World, cfg: Config, id: Id)
    requires Opportunity in cfg.stageOf
  {
    && id in w.board.cards
    && var c := w.board.cards[id];
    && c.status == Open && c.contact.Some? && c.org == cfg.org
    && c.stage == cfg.stageOf[Opportunity]
    && !Recent(w.board.cards, cfg, c.contact.value, w.now)
  }

  /** The opener: sent only from Oportunidade and outside the cooldown. */
  ghost function Dispatch(w: World, cfg: Config, id: Id, channel: bool, reachable: bool, conversation: Id,
                          delivered: bool): World
    requires ValidConfig(cfg)
  {
    if !channel || !MayDispatch(w, cfg, id) || !reachable then w
    else
      var c := w.board.cards[id].(conversation := Some(conversation));
      if !delivered then WithCard(w, id, c)
      else
        var recorded := WithCard(w, id, c.(outreach := Some(Outreach(1, w.now))));
        ToKey(recorded.(sent := w.sent + [Message(id, c.contact.value, w.now)]), cfg, id, ContactAttempt)
  }

  function Attempts(c: Card): int {
    if c.outreach.Some? then c.outreach.value.attempts else 1
  }

  /** A follow-up: recorded also when the channel declined it, as the result is ignored. */
  function FollowedUp(w: World, id: Id, delivery: Delivery): World
    requires id in w.board.cards && w.board.cards[id].contact.Some?
  {
    var c := w.board.cards[id];
    var recorded := WithCard(w, id, c.(outreach := Some(Outreach(Attempts(c) + 1, w.now))));
    match delivery
    case Threw => w
    case Declined => recorded
    case Queued => recorded.(sent := w.sent + [Message(id, c.contact.value, w.now)])
  }

  predicate MayFollowUp(w: World, cfg: Config, id: Id)
    requires id in w.board.cards
  {
    w.board.cards[id].contact.Some? && !Recent(w.board.cards, cfg, w.board.cards[id].contact.value, w.now)
  }

  ghost function Escalate(w: World, cfg: Config, id: Id, channel: bool, reachable: bool, delivery: Delivery): World
    requires ValidConfig(cfg)
  {
    if id !in w.board.cards || w.board.cards[id].status != Open then w
    else if Attempts(w.board.cards[id]) as real >= cfg.maxAttempts then ToKey(w, cfg, id, LostKey)
    else if MayFollowUp(w, cfg, id) && channel && reachable then ToKey(FollowedUp(w, id, delivery), cfg, id, FollowUp)
    else ToKey(w, cfg, id, FollowUp)
  }

  /** Requests the service accepts. */
  ghost predicate Accepts(w: World, cfg: Config, step: Step) {
    match step
    case Creates(id, c) => Legal(w.board, Create(id, c))
    case RuleAdds(id, c) =>
      && AutomationAdds(w.board.cards, id, c) && c.outreach.None?
      && c.pipeline in w.board.pipelines && w.board.pipelines[c.pipeline] == c.org
      && KnownStage(w.board.stages, c.pipeline, c.stage)
    case RuleMoves(id, toStage) =>
      && id in w.board.cards && w.board.cards[id].status == Open
      && KnownStage(w.board.stages, w.board.cards[id].pipeline, toStage)
    case Relinks(id, _) => id in w.board.cards
    case Deletes(id) => id in w.board.cards
    case _ => true
  }

  ghost function Next(w: World, cfg: Config, step: Step): World
    requires ValidConfig(cfg)
  {
    if !Accepts(w, cfg, step) then w
    else match step
      case Tick(ms) => w.(now := w.now + ms)
      case Creates(id, c) => w.(board := Apply(w.board, Create(id, c)))
      case Drags(id, toStage, toIndex) => Place(w, cfg, id, toStage, toIndex)
      case Dispatches(id, channel, reachable, conversation, delivered) =>
        Dispatch(w, cfg, id, channel, reachable, conversation, delivered)
      case Escalates(id, channel, reachable, delivery) => Escalate(w, cfg, id, channel, reachable, delivery)
      case MovesToKey(id, key) => ToKey(w, cfg, id, key)
      case RuleAdds(id, c) => WithCard(w, id, c)
      case RuleMoves(id, toStage) =>
        var kind := w.board.stages[toStage].kind;
        w.(board := w.board.(cards := AutomationMoved(w.board.cards, id, toStage, kind, w.now)),
           reopened := w.reopened + Reopens(w, cfg, id, toStage))
      case Relinks(id, contact) => WithCard(w, id, w.board.cards[id].(contact := contact))
      case Deletes(id) => w.(board := Apply(w.board, Remove(id)))
  }

  ghost function Run(w: World, cfg: Config, steps: seq<Step>): World
    requires ValidConfig(cfg)
    decreases |steps|
  {
    if steps == [] then w else Run(Next(w, cfg, steps[0]), cfg, steps[1..])
  }

  // --------------------------------------------------- moves keep the record

  /** A move touches position, status and closing time only. */
  ghost predicate SameRecord(a: Cards, b: Cards) {
    && a.Keys == b.Keys
    && forall id :: id in a ==>
         && b[id].org == a[id].org && b[id].pipeline == a[id].pipeline
         && b[id].contact == a[id].contact && b[id].outreach == a[id].outreach
  }

  lemma PlaceKeepsRecord(w: World, cfg: Config, id: Id, toStage: Id, toIndex: int)
    requires ValidConfig(cfg)
    ensures SameRecord(w.board.cards, Place(w, cfg, id, toStage, toIndex).board.cards)
    ensures var v := Place(w, cfg, id, toStage, toIndex); v.sent == w.sent && v.now == w.now
  {
  }

  lemma ToKeyKeepsRecord(w: World, cfg: Config, id: Id, key: StageKey)
    requires ValidConfig(cfg)
    ensures SameRecord(w.board.cards, ToKey(w, cfg, id, key).board.cards)
    ensures var v := ToKey(w, cfg, id, key); v.sent == w.sent && v.now == w.now
  {
    if id in w.board.cards {
      PlaceKeepsRecord(w, cfg, id, cfg.stageOf[key], NextIndex(w.board.cards, cfg.pipeline, cfg.stageOf[key]));
    }
  }

  // --------------------------------------------------------------- cooldown

  /** The message is on record: some card of its contact carries its time or a later one. */
  ghost predicate Recorded(cards: Cards, cfg: Config, m: Message) {
    exists id :: id in cards && OfContact(cards[id], cfg, m.contact) && cards[id].outreach.Some?
      && cards[id].outreach.value.lastSentAt >= m.at
  }

  ghost predicate Spaced(sent: seq<Message>, cfg: Config) {
    forall i, j :: 0 <= i < j < |sent| && sent[i].contact == sent[j].contact
      ==> sent[j].at as real - sent[i].at as real >= cfg.cooldownMs
  }

  /** Still inside the cooldown window. */
  predicate Fresh(w: World, cfg: Config, at: int) {
    at as real > w.now as real - cfg.cooldownMs
  }

  /** No message that still counts has been forgotten. */
  ghost predicate Remembered(w: World, cfg: Config) {
    forall m :: m in w.sent && Fresh(w, cfg, m.at) ==> Recorded(w.board.cards, cfg, m)
  }

  ghost predicate Settled(w: World, cfg: Config) {
    && Spaced(w.sent, cfg)
    && (forall m :: m in w.sent ==> m.at <= w.now)
    && (forall id :: id in w.board.cards && w.board.cards[id].outreach.Some? ==>
          w.board.cards[id].outreach.value.lastSentAt <= w.now)
    && FunnelStages(w.board, cfg) && Anchored(w.board)
  }

  ghost predicate CooldownInv(w: World, cfg: Config) {
    Settled(w, cfg) && Remembered(w, cfg)
  }

  /** The funnel is the organization's own, with its stages. */
  ghost predicate FunnelStages(b: Board, cfg: Config) {
    && cfg.pipeline in b.pipelines && b.pipelines[cfg.pipeline] == cfg.org
    && forall k :: k in cfg.stageOf ==> KnownStage(b.stages, cfg.pipeline, cfg.stageOf[k])
  }

  predicate InFunnel(w: World, cfg: Config, id: Id) {
    id in w.board.cards && w.board.cards[id].org == cfg.org && w.board.cards[id].pipeline == cfg.pipeline
  }

  /** Only these can lose a record or write one where it is not looked for. */
  predicate MayForget(w: World, cfg: Config, step: Step) {
    step.Deletes? || step.Relinks? || (step.Escalates? && !InFunnel(w, cfg, step.id))
  }

  /** After a deletion, a relinking or an escalation outside the funnel every message that counts is still on record. */
  ghost predicate Quiet(w: World, cfg: Config, step: Step)
    requires ValidConfig(cfg)
  {
    MayForget(w, cfg, step) ==> Remembered(Next(w, cfg, step), cfg)
  }

  ghost predicate QuietRun(w: World, cfg: Config, steps: seq<Step>)
    requires ValidConfig(cfg)
    decreases |steps|
  {
    steps != [] ==> Quiet(w, cfg, steps[0]) && QuietRun(Next(w, cfg, steps[0]), cfg, steps[1..])
  }

  lemma RecordedMono(a: Cards, b: Cards, cfg: Config, m: Message)
    requires Recorded(a, cfg, m)
    requires forall id :: id in a ==>
      id in b && b[id].org == a[id].org && b[id].pipeline == a[id].pipeline && b[id].contact == a[id].contact
    requires forall id :: id in a && a[id].outreach.Some? ==>
      b[id].outreach.Some? && b[id].outreach.value.lastSentAt >= a[id].outreach.value.lastSentAt
    ensures Recorded(b, cfg, m)
  {
    var id :| id in a && OfContact(a[id], cfg, m.contact) && a[id].outreach.Some?
      && a[id].outreach.value.lastSentAt >= m.at;
    assert OfContact(b[id], cfg, m.contact);
  }

  /** A message to a contact whose messages are all on record or old enough keeps messages apart. */
  lemma SendKeepsSettled(w: World, cfg: Config, id: Id, c: Card, logged: bool)
    requires ValidConfig(cfg) && CooldownInv(w, cfg) && id in w.board.cards
    requires var o := w.board.cards[id];
      && c.org == o.org && c.pipeline == o.pipeline && c.stage == o.stage
      && c.contact == o.contact && c.contact.Some?
      && c.outreach.Some? && c.outreach.value.lastSentAt == w.now
      && !Recent(w.board.cards, cfg, c.contact.value, w.now)
    ensures var v := WithCard(w, id, c);
      Settled(if logged then v.(sent := w.sent + [Message(id, c.contact.value, w.now)]) else v, cfg)
  {
    var msg := Message(id, c.contact.value, w.now);
    var sent := if logged then w.sent + [msg] else w.sent;
    forall m | m in w.sent && m.contact == msg.contact
      ensures w.now as real - m.at as real >= cfg.cooldownMs
    {
      if Fresh(w, cfg, m.at) { assert Recorded(w.board.cards, cfg, m); }
    }
    forall i, j | 0 <= i < j < |sent| && sent[i].contact == sent[j].contact
      ensures sent[j].at as real - sent[i].at as real >= cfg.cooldownMs
    {
      assert sent[i] == w.sent[i] && w.sent[i] in w.sent;
    }
  }

  /** Writing a message to the record of a card of the funnel. */
  lemma SendKeepsCooldown(w: World, cfg: Config, id: Id, c: Card, logged: bool)
    requires ValidConfig(cfg) && CooldownInv(w, cfg) && id in w.board.cards
    requires var o := w.board.cards[id];
      && c.org == o.org == cfg.org && c.pipeline == o.pipeline == cfg.pipeline && c.stage == o.stage
      && c.contact == o.contact && c.contact.Some?
      && c.outreach.Some? && c.outreach.value.lastSentAt == w.now
      && !Recent(w.board.cards, cfg, c.contact.value, w.now)
    ensures var v := WithCard(w, id, c);
      CooldownInv(if logged then v.(sent := w.sent + [Message(id, c.contact.value, w.now)]) else v, cfg)
  {
    SendKeepsSettled(w, cfg, id, c, logged);
    var msg := Message(id, c.contact.value, w.now);
    var v := WithCard(w, id, c);
    forall m | m in w.sent && Fresh(w, cfg, m.at) ensures Recorded(v.board.cards, cfg, m) {
      RecordedMono(w.board.cards, v.board.cards, cfg, m);
    }
    assert OfContact(v.board.cards[id], cfg, msg.contact);
    assert Recorded(v.board.cards, cfg, msg);
  }

  lemma MoveKeepsSettled(w: World, v: World, cfg: Config)
    requires Settled(w, cfg) && SameRecord(w.board.cards, v.board.cards) && Anchored(v.board)
    requires v.sent == w.sent && v.now == w.now
    requires v.board.stages == w.board.stages && v.board.pipelines == w.board.pipelines
    ensures Settled(v, cfg)
  {
  }

  lemma PlaceKeepsCooldown(w: World, cfg: Config, id: Id, toStage: Id, toIndex: int)
    requires ValidConfig(cfg) && CooldownInv(w, cfg)
    ensures CooldownInv(Place(w, cfg, id, toStage, toIndex), cfg)
  {
    var v := Place(w, cfg, id, toStage, toIndex);
    PlaceKeepsRecord(w, cfg, id, toStage, toIndex);
    forall m | m in w.sent && Fresh(v, cfg, m.at) ensures Recorded(v.board.cards, cfg, m) {
      RecordedMono(w.board.cards, v.board.cards, cfg, m);
    }
  }

  lemma ToKeyKeepsCooldown(w: World, cfg: Config, id: Id, key: StageKey)
    requires ValidConfig(cfg) && CooldownInv(w, cfg)
    ensures CooldownInv(ToKey(w, cfg, id, key), cfg)
  {
    if id in w.board.cards {
      PlaceKeepsCooldown(w, cfg, id, cfg.stageOf[key], NextIndex(w.board.cards, cfg.pipeline, cfg.stageOf[key]));
    }
  }

  lemma PlainKeepsCooldown(w: World, v: World, cfg: Config)
    requires CooldownInv(w, cfg) && v.sent == w.sent && v.now >= w.now
    requires v.board.stages == w.board.stages && v.board.pipelines == w.board.pipelines && Anchored(v.board)
    requires forall id :: id in w.board.cards ==>
      && id in v.board.cards
      && v.board.cards[id].org == w.board.cards[id].org && v.board.cards[id].pipeline == w.board.cards[id].pipeline
      && v.board.cards[id].contact == w.board.cards[id].contact
      && v.board.cards[id].outreach == w.board.cards[id].outreach
    requires forall id :: id in v.board.cards && id !in w.board.cards ==> v.board.cards[id].outreach.None?
    ensures CooldownInv(v, cfg)
  {
    forall m | m in w.sent && Fresh(v, cfg, m.at) ensures Recorded(v.board.cards, cfg, m) {
      RecordedMono(w.board.cards, v.board.cards, cfg, m);
    }
  }

  /** Deleting a card, or pointing it at another contact, is quiet when its record has run out, or there is none. */
  lemma ExpiredIsQuiet(w: World, cfg: Config, step: Step)
    requires ValidConfig(cfg) && CooldownInv(w, cfg) && (step.Deletes? || step.Relinks?)
    requires step.id in w.board.cards && w.board.cards[step.id].outreach.Some? ==>
      !Fresh(w, cfg, w.board.cards[step.id].outreach.value.lastSentAt)
    ensures Quiet(w, cfg, step)
  {
    var v := Next(w, cfg, step);
    forall m | m in w.sent && Fresh(v, cfg, m.at) ensures Recorded(v.board.cards, cfg, m) {
      var x :| x in w.board.cards && OfContact(w.board.cards[x], cfg, m.contact) && w.board.cards[x].outreach.Some?
        && w.board.cards[x].outreach.value.lastSentAt >= m.at;
      assert x != step.id && OfContact(v.board.cards[x], cfg, m.contact);
    }
  }

  /** Even a step that forgets leaves the messages sent so far apart. */
  lemma ForgettingKeepsSettled(w: World, cfg: Config, step: Step)
    requires ValidConfig(cfg) && CooldownInv(w, cfg) && MayForget(w, cfg, step)
    ensures Settled(Next(w, cfg, step), cfg)
  {
    if step.Escalates? && step.id in w.board.cards {
      StrayEscalationKeepsSettled(w, cfg, step.id, step.channel, step.reachable, step.delivery);
    }
  }

  lemma StrayEscalationKeepsSettled(w: World, cfg: Config, id: Id, channel: bool, reachable: bool, delivery: Delivery)
    requires ValidConfig(cfg) && CooldownInv(w, cfg) && id in w.board.cards
    ensures Settled(Escalate(w, cfg, id, channel, reachable, delivery), cfg)
  {
    ToKeyKeepsCooldown(w, cfg, id, LostKey);
    ToKeyKeepsCooldown(w, cfg, id, FollowUp);
    if MayFollowUp(w, cfg, id) { StrayFollowUpKeepsSettled(w, cfg, id, delivery); }
  }

  lemma StrayFollowUpKeepsSettled(w: World, cfg: Config, id: Id, delivery: Delivery)
    requires ValidConfig(cfg) && CooldownInv(w, cfg) && id in w.board.cards && MayFollowUp(w, cfg, id)
    ensures Settled(ToKey(FollowedUp(w, id, delivery), cfg, id, FollowUp), cfg)
  {
    var c := w.board.cards[id];
    var u := FollowedUp(w, id, delivery);
    SendKeepsSettled(w, cfg, id, c.(outreach := Some(Outreach(Attempts(c) + 1, w.now))), delivery.Queued?);
    ToKeyKeepsRecord(u, cfg, id, FollowUp);
    ToKeyKeepsStages(u, cfg, id, FollowUp);
    MoveKeepsSettled(u, ToKey(u, cfg, id, FollowUp), cfg);
  }

  lemma ToKeyKeepsStages(w: World, cfg: Config, id: Id, key: StageKey)
    requires ValidConfig(cfg) && Anchored(w.board)
    ensures var v := ToKey(w, cfg, id, key).board;
      Anchored(v) && v.stages == w.board.stages && v.pipelines == w.board.pipelines
  {
  }

  lemma DispatchKeepsCooldown(w: World, cfg: Config, id: Id, channel: bool, reachable: bool, conversation: Id,
                              delivered: bool)
    requires ValidConfig(cfg) && CooldownInv(w, cfg)
    ensures CooldownInv(Dispatch(w, cfg, id, channel, reachable, conversation, delivered), cfg)
  {
    if channel && MayDispatch(w, cfg, id) && reachable {
      var c := w.board.cards[id].(conversation := Some(conversation));
      if delivered {
        var sentCard := c.(outreach := Some(Outreach(1, w.now)));
        SendKeepsCooldown(w, cfg, id, sentCard, true);
        ToKeyKeepsCooldown(WithCard(w, id, sentCard).(sent := w.sent + [Message(id, c.contact.value, w.now)]),
                           cfg, id, ContactAttempt);
      } else {
        PlainKeepsCooldown(w, WithCard(w, id, c), cfg);
      }
    }
  }

  lemma FollowedUpKeepsCooldown(w: World, cfg: Config, id: Id, delivery: Delivery)
    requires ValidConfig(cfg) && CooldownInv(w, cfg)
    requires id in w.board.cards && w.board.cards[id].org == cfg.org && w.board.cards[id].pipeline == cfg.pipeline
    requires MayFollowUp(w, cfg, id)
    ensures CooldownInv(FollowedUp(w, id, delivery), cfg)
  {
    var c := w.board.cards[id];
    var recorded := c.(outreach := Some(Outreach(Attempts(c) + 1, w.now)));
    SendKeepsCooldown(w, cfg, id, recorded, delivery.Queued?);
  }

  lemma EscalateKeepsCooldown(w: World, cfg: Config, id: Id, channel: bool, reachable: bool, delivery: Delivery)
    requires ValidConfig(cfg) && CooldownInv(w, cfg)
    requires id in w.board.cards && w.board.cards[id].org == cfg.org && w.board.cards[id].pipeline == cfg.pipeline
    ensures CooldownInv(Escalate(w, cfg, id, channel, reachable, delivery), cfg)
  {
    if Attempts(w.board.cards[id]) as real >= cfg.maxAttempts {
      ToKeyKeepsCooldown(w, cfg, id, LostKey);
    } else if MayFollowUp(w, cfg, id) && channel && reachable {
      FollowedUpKeepsCooldown(w, cfg, id, delivery);
      ToKeyKeepsCooldown(FollowedUp(w, id, delivery), cfg, id, FollowUp);
    } else {
      ToKeyKeepsCooldown(w, cfg, id, FollowUp);
    }
  }

  lemma NextKeepsCooldown(w: World, cfg: Config, step: Step)
    requires ValidConfig(cfg) && CooldownInv(w, cfg) && Quiet(w, cfg, step)
    ensures CooldownInv(Next(w, cfg, step), cfg)
  {
    if MayForget(w, cfg, step) {
      ForgettingKeepsSettled(w, cfg, step);
    } else if Accepts(w, cfg, step) {
      match step
      case Tick(ms) => PlainKeepsCooldown(w, Next(w, cfg, step), cfg);
      case Creates(id, c) => PlainKeepsCooldown(w, Next(w, cfg, step), cfg);
      case Drags(id, toStage, toIndex) => PlaceKeepsCooldown(w, cfg, id, toStage, toIndex);
      case Dispatches(id, channel, reachable, conversation, delivered) =>
        DispatchKeepsCooldown(w, cfg, id, channel, reachable, conversation, delivered);
      case Escalates(id, channel, reachable, delivery) =>
        EscalateKeepsCooldown(w, cfg, id, channel, reachable, delivery);
      case MovesToKey(id, key) => ToKeyKeepsCooldown(w, cfg, id, key);
      case RuleAdds(id, c) => PlainKeepsCooldown(w, Next(w, cfg, step), cfg);
      case RuleMoves(id, toStage) => PlainKeepsCooldown(w, Next(w, cfg, step), cfg);
    }
  }

  /**
   * Two recovery messages to one contact are at least the cooldown apart, across all the
   * contact's cards, over every run whose forgetting steps leave every message that counts on record.
   */
  lemma {:induction false} CooldownHolds(w: World, cfg: Config, steps: seq<Step>)
    requires ValidConfig(cfg) && CooldownInv(w, cfg) && QuietRun(w, cfg, steps)
    ensures CooldownInv(Run(w, cfg, steps), cfg)
    decreases |steps|
  {
    if steps != [] {
      NextKeepsCooldown(w, cfg, steps[0]);
      CooldownHolds(Next(w, cfg, steps[0]), cfg, steps[1..]);
    }
  }

  // ---------------------------------------------------------------- attempts

  /** Messages sent about one card. */
  function SentAbout(sent: seq<Message>, id: Id): nat {
    if sent == [] then 0
    else SentAbout(sent[..|sent| - 1], id) + if sent[|sent| - 1].card == id then 1 else 0
  }

  lemma SentAboutNext(sent: seq<Message>, m: Message, id: Id)
    ensures SentAbout(sent + [m], id) == SentAbout(sent, id) + if m.card == id then 1 else 0
  {
    assert (sent + [m])[..|sent|] == sent;
  }

  /** A card that never came back to Oportunidade: nothing sent while there, then no more than its attempts. */
  ghost predicate WithinAttempts(w: World, cfg: Config, id: Id)
    requires ValidConfig(cfg)
  {
    var n := SentAbout(w.sent, id);
    if id !in w.board.cards then n == 0
    else
      var c := w.board.cards[id];
      if c.outreach.None? then n == 0
      else
        && c.stage != cfg.stageOf[Opportunity]
        && n <= c.outreach.value.attempts && 1 <= c.outreach.value.attempts
        && (c.outreach.value.attempts - 1) as real < cfg.maxAttempts
  }

  ghost predicate AttemptsInv(w: World, cfg: Config)
    requires ValidConfig(cfg)
  {
    && FunnelStages(w.board, cfg) && Anchored(w.board)
    && forall id :: id !in w.reopened ==> WithinAttempts(w, cfg, id)
  }

  lemma PlaceKeepsAttempts(w: World, cfg: Config, id: Id, toStage: Id, toIndex: int)
    requires ValidConfig(cfg) && AttemptsInv(w, cfg)
    ensures AttemptsInv(Place(w, cfg, id, toStage, toIndex), cfg)
  {
    var v := Place(w, cfg, id, toStage, toIndex);
    forall x | x !in v.reopened ensures WithinAttempts(v, cfg, x) {
      assert WithinAttempts(w, cfg, x);
    }
  }

  lemma ToKeyKeepsAttempts(w: World, cfg: Config, id: Id, key: StageKey)
    requires ValidConfig(cfg) && AttemptsInv(w, cfg)
    ensures AttemptsInv(ToKey(w, cfg, id, key), cfg)
  {
    if id in w.board.cards {
      PlaceKeepsAttempts(w, cfg, id, cfg.stageOf[key], NextIndex(w.board.cards, cfg.pipeline, cfg.stageOf[key]));
    }
  }

  /** A send recorded on the card and followed by a move out of Oportunidade, or on a card that cannot be there. */
  lemma SendAndMoveKeepsAttempts(w: World, u: World, cfg: Config, id: Id, c: Card, key: StageKey)
    requires ValidConfig(cfg) && AttemptsInv(w, cfg) && key != Opportunity
    requires id in w.board.cards
    requires var o := w.board.cards[id];
      o.org == c.org && o.pipeline == c.pipeline && o.stage == c.stage && c.outreach.Some?
    requires u.board == w.board.(cards := w.board.cards[id := c]) && u.reopened == w.reopened && u.now == w.now
    requires forall x :: x != id ==> SentAbout(u.sent, x) == SentAbout(w.sent, x)
    requires id !in w.reopened ==>
      && SentAbout(u.sent, id) <= c.outreach.value.attempts && 1 <= c.outreach.value.attempts
      && (c.outreach.value.attempts - 1) as real < cfg.maxAttempts
    ensures AttemptsInv(ToKey(u, cfg, id, key), cfg)
  {
    var toStage := cfg.stageOf[key];
    var v := ToKey(u, cfg, id, key);
    if c.pipeline == cfg.pipeline {
      assert v == Place(u, cfg, id, toStage, NextIndex(u.board.cards, cfg.pipeline, toStage));
      assert v.board.cards[id].stage == toStage;
    } else {
      assert v == u && c.stage != cfg.stageOf[Opportunity];
    }
    forall x | x !in v.reopened ensures WithinAttempts(v, cfg, x) {
      assert WithinAttempts(w, cfg, x);
    }
  }

  lemma DispatchKeepsAttempts(w: World, cfg: Config, id: Id, channel: bool, reachable: bool, conversation: Id,
                              delivered: bool)
    requires ValidConfig(cfg) && AttemptsInv(w, cfg)
    ensures AttemptsInv(Dispatch(w, cfg, id, channel, reachable, conversation, delivered), cfg)
  {
    if channel && MayDispatch(w, cfg, id) && reachable {
      var c := w.board.cards[id].(conversation := Some(conversation));
      if delivered {
        var sentCard := c.(outreach := Some(Outreach(1, w.now)));
        var msg := Message(id, c.contact.value, w.now);
        forall x ensures SentAbout(w.sent + [msg], x) == SentAbout(w.sent, x) + if x == id then 1 else 0 {
          SentAboutNext(w.sent, msg, x);
        }
        if id !in w.reopened { assert WithinAttempts(w, cfg, id); }
        SendAndMoveKeepsAttempts(w, WithCard(w, id, sentCard).(sent := w.sent + [msg]), cfg, id, sentCard,
                                 ContactAttempt);
      } else {
        PlainKeepsAttempts(w, WithCard(w, id, c), cfg);
      }
    }
  }

  lemma PlainKeepsAttempts(w: World, v: World, cfg: Config)
    requires ValidConfig(cfg) && AttemptsInv(w, cfg) && v.sent == w.sent
    requires v.board.stages == w.board.stages && v.board.pipelines == w.board.pipelines
    requires Anchored(v.board) && w.reopened <= v.reopened
    requires forall id :: id in w.board.cards ==>
      && id in v.board.cards && v.board.cards[id].outreach == w.board.cards[id].outreach
      && (v.board.cards[id].stage == w.board.cards[id].stage
          || v.board.cards[id].stage != cfg.stageOf[Opportunity] || id in v.reopened)
    requires forall id :: id in v.board.cards && id !in w.board.cards ==> v.board.cards[id].outreach.None?
    ensures AttemptsInv(v, cfg)
  {
    forall x | x !in v.reopened ensures WithinAttempts(v, cfg, x) {
      assert WithinAttempts(w, cfg, x);
    }
  }

  lemma EscalateKeepsAttempts(w: World, cfg: Config, id: Id, channel: bool, reachable: bool, delivery: Delivery)
    requires ValidConfig(cfg) && AttemptsInv(w, cfg)
    requires id in w.board.cards
    ensures AttemptsInv(Escalate(w, cfg, id, channel, reachable, delivery), cfg)
  {
    var c := w.board.cards[id];
    if Attempts(c) as real >= cfg.maxAttempts {
      ToKeyKeepsAttempts(w, cfg, id, LostKey);
    } else if MayFollowUp(w, cfg, id) && channel && reachable && !delivery.Threw? {
      FollowUpKeepsAttempts(w, cfg, id, delivery);
    } else {
      ToKeyKeepsAttempts(w, cfg, id, FollowUp);
    }
  }

  lemma FollowUpKeepsAttempts(w: World, cfg: Config, id: Id, delivery: Delivery)
    requires ValidConfig(cfg) && AttemptsInv(w, cfg) && !delivery.Threw?
    requires id in w.board.cards
    requires MayFollowUp(w, cfg, id) && (Attempts(w.board.cards[id]) as real) < cfg.maxAttempts
    ensures AttemptsInv(ToKey(FollowedUp(w, id, delivery), cfg, id, FollowUp), cfg)
  {
    var c := w.board.cards[id];
    var msg := Message(id, c.contact.value, w.now);
    forall x ensures SentAbout(w.sent + [msg], x) == SentAbout(w.sent, x) + if x == id then 1 else 0 {
      SentAboutNext(w.sent, msg, x);
    }
    if id !in w.reopened { assert WithinAttempts(w, cfg, id); }
    SendAndMoveKeepsAttempts(w, FollowedUp(w, id, delivery), cfg, id,
                             c.(outreach := Some(Outreach(Attempts(c) + 1, w.now))), FollowUp);
  }

  lemma NextKeepsAttempts(w: World, cfg: Config, step: Step)
    requires ValidConfig(cfg) && AttemptsInv(w, cfg) && !step.Deletes?
    ensures AttemptsInv(Next(w, cfg, step), cfg)
  {
    if Accepts(w, cfg, step) {
      match step
      case Tick(_) => PlainKeepsAttempts(w, Next(w, cfg, step), cfg);
      case Creates(_, _) => PlainKeepsAttempts(w, Next(w, cfg, step), cfg);
      case Drags(id, toStage, toIndex) => PlaceKeepsAttempts(w, cfg, id, toStage, toIndex);
      case Dispatches(id, channel, reachable, conversation, delivered) =>
        DispatchKeepsAttempts(w, cfg, id, channel, reachable, conversation, delivered);
      case Escalates(id, channel, reachable, delivery) =>
        if id in w.board.cards { EscalateKeepsAttempts(w, cfg, id, channel, reachable, delivery); }
      case MovesToKey(id, key) => ToKeyKeepsAttempts(w, cfg, id, key);
      case RuleAdds(_, _) => PlainKeepsAttempts(w, Next(w, cfg, step), cfg);
      case RuleMoves(_, _) => PlainKeepsAttempts(w, Next(w, cfg, step), cfg);
      case Relinks(_, _) => PlainKeepsAttempts(w, Next(w, cfg, step), cfg);
    }
  }

  lemma {:induction false} RunKeepsAttempts(w: World, cfg: Config, steps: seq<Step>)
    requires ValidConfig(cfg) && AttemptsInv(w, cfg) && forall s :: s in steps ==> !s.Deletes?
    ensures AttemptsInv(Run(w, cfg, steps), cfg)
    decreases |steps|
  {
    if steps != [] {
      NextKeepsAttempts(w, cfg, steps[0]);
      RunKeepsAttempts(Next(w, cfg, steps[0]), cfg, steps[1..]);
    }
  }

  /**
   * From a funnel that has sent nothing, a card never dragged back into Oportunidade is
   * written to fewer than maxAttempts + 1 times: at most maxAttempts when it is whole.
   */
  lemma AttemptsHold(w: World, cfg: Config, steps: seq<Step>, id: Id)
    requires ValidConfig(cfg) && FunnelStages(w.board, cfg) && Anchored(w.board) && w.sent == []
    requires forall x :: x in w.board.cards ==> w.board.cards[x].outreach.None?
    requires forall s :: s in steps ==> !s.Deletes?
    ensures var v := Run(w, cfg, steps);
      id !in v.reopened ==> SentAbout(v.sent, id) as real < cfg.maxAttempts + 1.0
  {
    RunKeepsAttempts(w, cfg, steps);
    var v := Run(w, cfg, steps);
    if id !in v.reopened { assert WithinAttempts(v, cfg, id); }
  }

  // -------------------------------------------------------- the board below

  lemma PlaceKeepsBoard(w: World, cfg: Config, id: Id, toStage: Id, toIndex: int)
    requires ValidConfig(cfg) && Inv(w.board)
    ensures Inv(Place(w, cfg, id, toStage, toIndex).board)
  {
    ApplyKeepsInv(w.board, Move(id, toStage, toIndex, w.now));
  }

  lemma ToKeyKeepsBoard(w: World, cfg: Config, id: Id, key: StageKey)
    requires ValidConfig(cfg) && Inv(w.board)
    ensures Inv(ToKey(w, cfg, id, key).board)
  {
    if id in w.board.cards {
      PlaceKeepsBoard(w, cfg, id, cfg.stageOf[key], NextIndex(w.board.cards, cfg.pipeline, cfg.stageOf[key]));
    }
  }

  lemma DispatchKeepsBoard(w: World, cfg: Config, id: Id, channel: bool, reachable: bool, conversation: Id,
                           delivered: bool)
    requires ValidConfig(cfg) && Inv(w.board)
    ensures Inv(Dispatch(w, cfg, id, channel, reachable, conversation, delivered).board)
  {
    if channel && MayDispatch(w, cfg, id) && reachable && delivered {
      var c := w.board.cards[id].(conversation := Some(conversation));
      var recorded := WithCard(w, id, c.(outreach := Some(Outreach(1, w.now))));
      ToKeyKeepsBoard(recorded.(sent := w.sent + [Message(id, c.contact.value, w.now)]), cfg, id, ContactAttempt);
    }
  }

  lemma FollowedUpKeepsBoard(w: World, id: Id, delivery: Delivery)
    requires Inv(w.board) && id in w.board.cards && w.board.cards[id].contact.Some?
    ensures Inv(FollowedUp(w, id, delivery).board)
  {
  }

  lemma EscalateKeepsBoard(w: World, cfg: Config, id: Id, channel: bool, reachable: bool, delivery: Delivery)
    requires ValidConfig(cfg) && Inv(w.board)
    ensures Inv(Escalate(w, cfg, id, channel, reachable, delivery).board)
  {
    if id !in w.board.cards || w.board.cards[id].status != Open {
    } else if Attempts(w.board.cards[id]) as real >= cfg.maxAttempts {
      ToKeyKeepsBoard(w, cfg, id, LostKey);
    } else if MayFollowUp(w, cfg, id) && channel && reachable {
      FollowedUpKeepsBoard(w, id, delivery);
      ToKeyKeepsBoard(FollowedUp(w, id, delivery), cfg, id, FollowUp);
    } else {
      ToKeyKeepsBoard(w, cfg, id, FollowUp);
    }
  }

  /** Every recovery step keeps orders distinct, cards anchored and closing times right. */
  lemma NextKeepsBoard(w: World, cfg: Config, step: Step)
    requires ValidConfig(cfg) && Inv(w.board) && !step.RuleAdds? && !step.RuleMoves?
    ensures Inv(Next(w, cfg, step).board)
  {
    if Accepts(w, cfg, step) {
      match step
      case Tick(_) =>
      case Creates(id, c) => ApplyKeepsInv(w.board, Create(id, c));
      case Drags(id, toStage, toIndex) => PlaceKeepsBoard(w, cfg, id, toStage, toIndex);
      case Dispatches(id, channel, reachable, conversation, delivered) =>
        DispatchKeepsBoard(w, cfg, id, channel, reachable, conversation, delivered);
      case Escalates(id, channel, reachable, delivery) => EscalateKeepsBoard(w, cfg, id, channel, reachable, delivery);
      case MovesToKey(id, key) => ToKeyKeepsBoard(w, cfg, id, key);
      case Relinks(_, _) =>
      case Deletes(id) => ApplyKeepsInv(w.board, Remove(id));
    }
  }

  lemma {:induction false} RunKeepsBoard(w: World, cfg: Config, steps: seq<Step>)
    requires ValidConfig(cfg) && Inv(w.board) && forall s :: s in steps ==> !s.RuleAdds? && !s.RuleMoves?
    ensures Inv(Run(w, cfg, steps).board)
    decreases |steps|
  {
    if steps != [] {
      NextKeepsBoard(w, cfg, steps[0]);
      RunKeepsBoard(Next(w, cfg, steps[0]), cfg, steps[1..]);
    }
  }

  // ------------------------------------------------- what the conditions buy

  /** What a delivered opener does to the log. */
  lemma DispatchSends(w: World, cfg: Config, id: Id, conversation: Id)
    requires ValidConfig(cfg) && MayDispatch(w, cfg, id)
    ensures var v := Next(w, cfg, Dispatches(id, true, true, conversation, true));
      && v.sent == w.sent + [Message(id, w.board.cards[id].contact.value, w.now)]
      && v.board.cards.Keys == w.board.cards.Keys && v.now == w.now
      && v.board.pipelines == w.board.pipelines && v.board.stages == w.board.stages
  {
    var c := w.board.cards[id];
    var recorded := WithCard(w, id, c.(conversation := Some(conversation), outreach := Some(Outreach(1, w.now))));
    ToKeyKeepsRecord(recorded.(sent := w.sent + [Message(id, c.contact.value, w.now)]), cfg, id, ContactAttempt);
  }

  /** A fresh card in an empty Oportunidade may be dispatched at once. */
  lemma FreshCardMayDispatch(w: World, cfg: Config, id: Id, c: Card)
    requires ValidConfig(cfg) && FunnelStages(w.board, cfg) && w.board.cards == map[]
    requires c.stage == cfg.stageOf[Opportunity] && c.pipeline == cfg.pipeline && c.org == cfg.org && c.order == 0
    requires c.status == Open && c.closedAt.None? && c.outreach.None? && c.contact.Some?
    requires c.pipeline in w.board.pipelines && w.board.pipelines[c.pipeline] == c.org
    ensures var v := Next(w, cfg, Creates(id, c));
      v == w.(board := w.board.(cards := map[id := c])) && MayDispatch(v, cfg, id)
  {
    assert Members(w.board.cards, c.pipeline, c.stage) == {};
    assert Legal(w.board, Create(id, c));
  }

  /** Delete a contact's card and create another: two messages at the same moment. */
  lemma DeletionBreaksCooldown(w: World, cfg: Config, c: Card, conversation: Id)
    requires ValidConfig(cfg) && FunnelStages(w.board, cfg) && w.board.cards == map[] && w.sent == []
    requires c.stage == cfg.stageOf[Opportunity] && c.pipeline == cfg.pipeline && c.org == cfg.org && c.order == 0
    requires c.status == Open && c.closedAt.None? && c.outreach.None? && c.contact.Some?
    requires c.pipeline in w.board.pipelines && w.board.pipelines[c.pipeline] == c.org
    ensures var send := Dispatches(0, true, true, conversation, true);
      !Spaced(Run(w, cfg, [Creates(0, c), send, Step.Deletes(0), Creates(0, c), send]).sent, cfg)
  {
    var send, create, delete := Dispatches(0, true, true, conversation, true), Creates(0, c), Step.Deletes(0);
    var w1 := Next(w, cfg, create);
    FreshCardMayDispatch(w, cfg, 0, c);
    var w2 := Next(w1, cfg, send);
    DispatchSends(w1, cfg, 0, conversation);
    var w3 := Next(w2, cfg, delete);
    assert w3.board.cards == map[];
    var w4 := Next(w3, cfg, create);
    FreshCardMayDispatch(w3, cfg, 0, c);
    var w5 := Next(w4, cfg, send);
    DispatchSends(w4, cfg, 0, conversation);
    assert w5.sent[0].contact == w5.sent[1].contact && w5.sent[0].at == w5.sent[1].at;
    RunCons(w, cfg, create, [send, delete, create, send]);
    RunCons(w1, cfg, send, [delete, create, send]);
    RunCons(w2, cfg, delete, [create, send]);
    RunCons(w3, cfg, create, [send]);
    RunCons(w4, cfg, send, []);
  }

  /** Whatever quiet run follows, messages stay apart. */
  ghost predicate Safe(w: World, cfg: Config)
    requires ValidConfig(cfg)
  {
    forall steps :: QuietRun(w, cfg, steps) ==> Spaced(Run(w, cfg, steps).sent, cfg)
  }

  /** The first whole millisecond at which records before `at` have run out; a message of `at` still counts then. */
  function Shadowless(cfg: Config, at: int): int {
    var x := at as real - 1.0 + cfg.cooldownMs;
    if x.Floor as real == x then x.Floor else x.Floor + 1
  }

  /** Waiting that long, an unrecorded message is one the cooldown check no longer sees. */
  lemma UnseenLater(w: World, cfg: Config, m: Message) returns (ms: nat)
    requires ValidConfig(cfg) && Fresh(w, cfg, m.at) && !Recorded(w.board.cards, cfg, m)
    ensures !Recent(w.board.cards, cfg, m.contact, w.now + ms)
    ensures (w.now + ms) as real - m.at as real < cfg.cooldownMs
  {
    var t := Shadowless(cfg, m.at);
    ms := if t > w.now then t - w.now else 0;
    forall id | id in w.board.cards && OfContact(w.board.cards[id], cfg, m.contact) && w.board.cards[id].outreach.Some?
      ensures w.board.cards[id].outreach.value.lastSentAt as real <= (w.now + ms) as real - cfg.cooldownMs
    {
      assert w.board.cards[id].outreach.value.lastSentAt <= m.at - 1;
    }
  }

  /** A new card for the contact of an unseen message, dispatched at once, comes too soon after it. */
  lemma UnseenIsRepeated(w: World, cfg: Config, m: Message, id: Id, conversation: Id) returns (create: Step, send: Step)
    requires ValidConfig(cfg) && FunnelStages(w.board, cfg) && id !in w.board.cards && m in w.sent
    requires !Recent(w.board.cards, cfg, m.contact, w.now) && w.now as real - m.at as real < cfg.cooldownMs
    ensures create.Creates? && send.Dispatches?
    ensures !Spaced(Run(w, cfg, [create, send]).sent, cfg)
  {
    var stage := cfg.stageOf[Opportunity];
    var c := Card(cfg.org, cfg.pipeline, stage, NextIndex(w.board.cards, cfg.pipeline, stage), Open, None,
                  Some(m.contact), None, None);
    create, send := Creates(id, c), Dispatches(id, true, true, conversation, true);
    var w1 := Next(w, cfg, create);
    assert w1 == w.(board := w.board.(cards := w.board.cards[id := c]));
    assert MayDispatch(w1, cfg, id);
    DispatchSends(w1, cfg, id, conversation);
    RunCons(w, cfg, create, [send]);
    RunCons(w1, cfg, send, []);
    var sent := Next(w1, cfg, send).sent;
    var i :| 0 <= i < |w.sent| && w.sent[i] == m;
    assert sent[i] == m && sent[|w.sent|] == Message(id, m.contact, w.now);
  }

  /** From any world that has forgotten a message that counts, the cooldown can be broken. */
  lemma ForgottenIsUnsafe(w: World, cfg: Config, m: Message, id: Id)
    requires ValidConfig(cfg) && FunnelStages(w.board, cfg) && id !in w.board.cards
    requires m in w.sent && Fresh(w, cfg, m.at) && !Recorded(w.board.cards, cfg, m)
    ensures !Safe(w, cfg)
  {
    var ms := UnseenLater(w, cfg, m);
    var w1 := Next(w, cfg, Tick(ms));
    var create, send := UnseenIsRepeated(w1, cfg, m, id, 0);
    var steps := [Tick(ms)] + [create, send];
    RunCons(w, cfg, Tick(ms), [create, send]);
    assert steps[1..] == [create, send] && [create, send][1..] == [send] && [send][1..] == [];
    assert QuietRun(Next(w1, cfg, create), cfg, [send]);
    assert QuietRun(w1, cfg, [create, send]);
    assert QuietRun(w, cfg, steps);
  }

  lemma {:induction false} AboveAll(ids: set<Id>) returns (n: Id)
    ensures forall x :: x in ids ==> x < n
  {
    n := 0;
    if ids != {} {
      var x :| x in ids;
      var m := AboveAll(ids - {x});
      n := if m > x then m else x + 1;
      assert forall y :: y in ids ==> y == x || y in ids - {x};
    }
  }

  /** The cooldown is safe for the future exactly when every message that still counts is on record. */
  lemma SafeIffRemembered(w: World, cfg: Config)
    requires ValidConfig(cfg) && Settled(w, cfg)
    ensures Safe(w, cfg) <==> Remembered(w, cfg)
  {
    if Remembered(w, cfg) {
      forall steps | QuietRun(w, cfg, steps) ensures Spaced(Run(w, cfg, steps).sent, cfg) {
        CooldownHolds(w, cfg, steps);
      }
    } else {
      var m :| m in w.sent && Fresh(w, cfg, m.at) && !Recorded(w.board.cards, cfg, m);
      var id := AboveAll(w.board.cards.Keys);
      ForgottenIsUnsafe(w, cfg, m, id);
    }
  }

  /** A step keeps the cooldown safe exactly when it is quiet; only deletions, relinkings and escalations fail. */
  lemma StepKeepsCooldownIff(w: World, cfg: Config, step: Step)
    requires ValidConfig(cfg) && CooldownInv(w, cfg)
    ensures Safe(Next(w, cfg, step), cfg) <==> Quiet(w, cfg, step)
  {
    if MayForget(w, cfg, step) {
      ForgettingKeepsSettled(w, cfg, step);
    } else {
      NextKeepsCooldown(w, cfg, step);
    }
    SafeIffRemembered(Next(w, cfg, step), cfg);
  }

  lemma RunCons(w: World, cfg: Config, step: Step, rest: seq<Step>)
    requires ValidConfig(cfg)
    ensures Run(w, cfg, [step] + rest) == Run(Next(w, cfg, step), cfg, rest)
  {
    assert ([step] + rest)[1..] == rest;
  }

  // --------------------------------------------------- records and messages

  /** A message about the card went out at this time. */
  predicate SentAt(sent: seq<Message>, id: Id, at: int) {
    exists m :: m in sent && m.card == id && m.at == at
  }

  /** Every record stands for a message that went out. */
  ghost predicate Backed(w: World) {
    forall id :: id in w.board.cards && w.board.cards[id].outreach.Some? ==>
      SentAt(w.sent, id, w.board.cards[id].outreach.value.lastSentAt)
  }

  /** An escalation that passes every guard and whose follow-up the channel declines. */
  predicate RecordsDeclined(w: World, cfg: Config, step: Step) {
    && step.Escalates? && step.delivery.Declined? && step.channel && step.reachable
    && step.id in w.board.cards && w.board.cards[step.id].status == Open
    && (Attempts(w.board.cards[step.id]) as real) < cfg.maxAttempts
    && MayFollowUp(w, cfg, step.id)
  }

  lemma MovesKeepBacked(w: World, v: World)
    requires SameRecord(w.board.cards, v.board.cards) && v.sent == w.sent
    ensures Backed(w) <==> Backed(v)
  {
  }

  lemma ToKeyKeepsBacked(w: World, cfg: Config, id: Id, key: StageKey)
    requires ValidConfig(cfg)
    ensures Backed(ToKey(w, cfg, id, key)) <==> Backed(w)
  {
    ToKeyKeepsRecord(w, cfg, id, key);
    MovesKeepBacked(w, ToKey(w, cfg, id, key));
  }

  lemma SendingKeepsBacked(w: World, id: Id, c: Card)
    requires Backed(w) && id in w.board.cards && c.contact.Some?
    requires c.outreach.Some? && c.outreach.value.lastSentAt == w.now
    ensures Backed(WithCard(w, id, c).(sent := w.sent + [Message(id, c.contact.value, w.now)]))
  {
    var v := WithCard(w, id, c).(sent := w.sent + [Message(id, c.contact.value, w.now)]);
    assert v.sent[|w.sent|] in v.sent;
    forall x | x in v.board.cards && v.board.cards[x].outreach.Some?
      ensures SentAt(v.sent, x, v.board.cards[x].outreach.value.lastSentAt)
    {
      if x != id {
        var m :| m in w.sent && m.card == x && m.at == w.board.cards[x].outreach.value.lastSentAt;
        assert m in v.sent;
      }
    }
  }

  lemma FollowedUpKeepsBackedIff(w: World, id: Id, delivery: Delivery)
    requires Backed(w) && id in w.board.cards && w.board.cards[id].contact.Some?
    ensures Backed(FollowedUp(w, id, delivery)) <==> (delivery.Declined? ==> SentAt(w.sent, id, w.now))
  {
    var c := w.board.cards[id];
    var recorded := c.(outreach := Some(Outreach(Attempts(c) + 1, w.now)));
    if delivery.Queued? { SendingKeepsBacked(w, id, recorded); }
    if delivery.Declined? { assert WithCard(w, id, recorded).board.cards[id] == recorded; }
  }

  lemma EscalateKeepsBackedIff(w: World, cfg: Config, id: Id, channel: bool, reachable: bool, delivery: Delivery)
    requires ValidConfig(cfg) && Backed(w)
    ensures Backed(Escalate(w, cfg, id, channel, reachable, delivery)) <==>
      (RecordsDeclined(w, cfg, Escalates(id, channel, reachable, delivery)) ==> SentAt(w.sent, id, w.now))
  {
    ToKeyKeepsBacked(w, cfg, id, LostKey);
    ToKeyKeepsBacked(w, cfg, id, FollowUp);
    if id in w.board.cards && w.board.cards[id].contact.Some? {
      FollowedUpKeepsBackedIff(w, id, delivery);
      ToKeyKeepsBacked(FollowedUp(w, id, delivery), cfg, id, FollowUp);
    }
  }

  lemma DispatchKeepsBacked(w: World, cfg: Config, id: Id, channel: bool, reachable: bool, conversation: Id,
                            delivered: bool)
    requires ValidConfig(cfg) && Backed(w)
    ensures Backed(Dispatch(w, cfg, id, channel, reachable, conversation, delivered))
  {
    if channel && MayDispatch(w, cfg, id) && reachable && delivered {
      var c := w.board.cards[id].(conversation := Some(conversation), outreach := Some(Outreach(1, w.now)));
      SendingKeepsBacked(w, id, c);
      var msg := Message(id, c.contact.value, w.now);
      ToKeyKeepsBacked(WithCard(w, id, c).(sent := w.sent + [msg]), cfg, id, ContactAttempt);
    }
  }

  /**
   * Records stand for messages until an escalation's follow-up is declined: exactly those steps break it,
   * unless a message about the same card went out at this very moment.
   */
  lemma StepKeepsBackedIff(w: World, cfg: Config, step: Step)
    requires ValidConfig(cfg) && Backed(w)
    ensures Backed(Next(w, cfg, step)) <==> (RecordsDeclined(w, cfg, step) ==> SentAt(w.sent, step.id, w.now))
  {
    if Accepts(w, cfg, step) {
      match step
      case Tick(_) =>
      case Creates(_, _) =>
      case Drags(id, toStage, toIndex) =>
        PlaceKeepsRecord(w, cfg, id, toStage, toIndex);
        MovesKeepBacked(w, Next(w, cfg, step));
      case Dispatches(id, channel, reachable, conversation, delivered) =>
        DispatchKeepsBacked(w, cfg, id, channel, reachable, conversation, delivered);
      case Escalates(id, channel, reachable, delivery) =>
        EscalateKeepsBackedIff(w, cfg, id, channel, reachable, delivery);
      case MovesToKey(id, key) => ToKeyKeepsBacked(w, cfg, id, key);
      case RuleAdds(_, _) =>
      case RuleMoves(_, _) =>
      case Relinks(_, _) =>
      case Deletes(_) =>
    }
  }

  /** Such a step is reached at once: a card is created and its first follow-up declined. */
  lemma DeclineIsRecorded(w: World, cfg: Config, c: Card)
    requires ValidConfig(cfg) && cfg.maxAttempts > 1.0
    requires FunnelStages(w.board, cfg) && w.board.cards == map[] && w.sent == []
    requires c.stage == cfg.stageOf[Opportunity] && c.pipeline == cfg.pipeline && c.org == cfg.org && c.order == 0
    requires c.status == Open && c.closedAt.None? && c.outreach.None? && c.contact.Some?
    ensures Backed(w) && !Backed(Run(w, cfg, [Creates(0, c), Escalates(0, true, true, Declined)]))
  {
    var create, escalate := Creates(0, c), Escalates(0, true, true, Declined);
    FreshCardMayDispatch(w, cfg, 0, c);
    var w1 := Next(w, cfg, create);
    assert RecordsDeclined(w1, cfg, escalate);
    StepKeepsBackedIff(w1, cfg, escalate);
    RunCons(w, cfg, create, [escalate]);
    RunCons(w1, cfg, escalate, []);
  }

  // ---------------------------------------------------------------- service

  class SalesRecoveryService {
    const pipelines: PipelinesService
    const config: Config
    var now: int
    /** The outbound queue, as far as recovery writes to it. */
    var outbound: seq<Message>
    ghost var reopened: set<Id>

    constructor (pipelines: PipelinesService, config: Config, now: int)
      ensures this.pipelines == pipelines && this.config == config
      ensures Snapshot() == World(pipelines.State(), now, [], {})
    {
      this.pipelines, this.config, this.now := pipelines, config, now;
      outbound, reopened := [], {};
    }

    ghost function Snapshot(): World
      reads this, pipelines
    {
      World(pipelines.State(), now, outbound, reopened)
    }

    /** Has the contact been written to inside the cooldown window? */
    method HasRecentOutreach(contact: Id) returns (recent: bool)
      ensures recent == Recent(pipelines.cards, config, contact, now)
    {
      var sinceMs := now as real - config.cooldownMs;
      var cards := pipelines.cards;
      var left := set id | id in cards && OfContact(cards[id], config, contact);
      while left != {}
        invariant left <= cards.Keys
        invariant forall id :: id in left ==> OfContact(cards[id], config, contact)
        invariant Recent(cards, config, contact, now) ==>
          exists id :: id in left && cards[id].outreach.Some? && cards[id].outreach.value.lastSentAt as real > sinceMs
        decreases |left|
      {
        var id :| id in left;
        left := left - {id};
        var outreach := cards[id].outreach;
        if outreach.Some? && outreach.value.lastSentAt as real > sinceMs { return true; }
      }
      return false;
    }

    /** Moves a card to the end of the stage with this key. */
    method MoveToKey(cardId: Id, key: StageKey) returns (r: Result<Card, Error>)
      requires ValidConfig(config)
      modifies pipelines`cards, this`reopened
      ensures Snapshot() == ToKey(old(Snapshot()), config, cardId, key)
    {
      var toStage := config.stageOf[key];
      var toIndex := pipelines.NextIndexInStage(config.pipeline, toStage);
      NextIndexUnique(pipelines.cards, config.pipeline, toStage, toIndex);
      ghost var before := Snapshot();
      r := pipelines.MoveCard(cardId, config.org, toStage, toIndex, now);
      if r.Ok? { reopened := reopened + Reopens(before, config, cardId, toStage); }
    }

    method PutCard(cardId: Id, card: Card)
      modifies pipelines`cards
      ensures Snapshot() == WithCard(old(Snapshot()), cardId, card)
    {
      pipelines.cards := pipelines.cards[cardId := card];
    }

    /** The opener. `reachable`: the contact has an address on the channel; `delivered`: the channel took it. */
    method DispatchOutreach(cardId: Id, channel: bool, reachable: bool, conversation: Id, delivered: bool)
      requires ValidConfig(config)
      modifies pipelines`cards, this`reopened, this`outbound
      ensures Snapshot() ==
        Next(old(Snapshot()), config, Dispatches(cardId, channel, reachable, conversation, delivered))
    {
      if !channel { return; }
      if cardId !in pipelines.cards { return; }
      var card := pipelines.cards[cardId];
      if card.status != Open || card.contact.None? || card.org != config.org { return; }
      if card.stage != config.stageOf[Opportunity] { return; }
      var recent := HasRecentOutreach(card.contact.value);
      if recent || !reachable { return; }
      var updated := card.(conversation := Some(conversation));
      if delivered {
        outbound := outbound + [Message(cardId, card.contact.value, now)];
        updated := updated.(outreach := Some(Outreach(1, now)));
      }
      PutCard(cardId, updated);
      if delivered {
        var _ := MoveToKey(cardId, ContactAttempt);
      }
    }

    /** A follow-up, unless the contact cannot be reached or was written to recently. */
    method FollowUpIfCool(cardId: Id, channel: bool, reachable: bool, delivery: Delivery)
      requires cardId in pipelines.cards
      modifies pipelines`cards, this`outbound
      ensures Snapshot() == (if MayFollowUp(old(Snapshot()), config, cardId) && channel && reachable
                             then FollowedUp(old(Snapshot()), cardId, delivery) else old(Snapshot()))
    {
      var card := pipelines.cards[cardId];
      var attempts := if card.outreach.Some? then card.outreach.value.attempts else 1;
      var cooldownOk := false;
      if card.contact.Some? {
        var recent := HasRecentOutreach(card.contact.value);
        cooldownOk := !recent;
      }
      if card.contact.Some? && channel && cooldownOk && reachable && !delivery.Threw? {
        if delivery.Queued? {
          outbound := outbound + [Message(cardId, card.contact.value, now)];
        }
        PutCard(cardId, card.(outreach := Some(Outreach(attempts + 1, now))));
      }
    }

    /** What the watchdog does to a silent card. */
    method EscalateStuckCard(cardId: Id, channel: bool, reachable: bool, delivery: Delivery)
      requires ValidConfig(config)
      modifies pipelines`cards, this`reopened, this`outbound
      ensures Snapshot() == Next(old(Snapshot()), config, Escalates(cardId, channel, reachable, delivery))
    {
      if cardId !in pipelines.cards || pipelines.cards[cardId].status != Open { return; }
      var card := pipelines.cards[cardId];
      var attempts := if card.outreach.Some? then card.outreach.value.attempts else 1;
      if attempts as real >= config.maxAttempts {
        var _ := MoveToKey(cardId, LostKey);
        return;
      }
      FollowUpIfCool(cardId, channel, reachable, delivery);
      var _ := MoveToKey(cardId, FollowUp);
    }
  }
}

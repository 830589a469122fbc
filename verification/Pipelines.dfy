/**
 * The pipeline service over its tables: pipelines, stages and cards. Each
 * method runs the row updates of one request; `Apply` says in one step what the
 * tables look like afterwards, and the run lemmas are about any sequence of
 * such steps.
 */
module Pipelines {
  import opened Common
  import opened CardOrder
  import opened CardMoves

  datatype Stage = Stage(pipeline: Id, kind: StageKind, order: int)

  datatype Error = NotFound | Forbidden | BadRequest

  datatype Conversation = Conversation(org: Id, contact: Id)

  /** `freshId` is the id the database will give the stage if it has none yet. */
  datatype StageDto = StageDto(id: Option<Id>, freshId: Id, kind: StageKind, order: Option<int>)

  /** `pipelines` maps a pipeline to the organization that owns it. */
  datatype Board = Board(pipelines: map<Id, Id>, stages: map<Id, Stage>, cards: Cards)

  datatype Op =
    | Create(id: Id, card: Card)
    | Remove(id: Id)
    | Move(id: Id, toStage: Id, toIndex: int, now: int)
    | UpsertStages(pipeline: Id, dtos: seq<StageDto>)

  // ------------------------------------------------------------- invariants

  /** Every card sits in an existing stage of its own pipeline and organization. */
  ghost predicate Anchored(b: Board) {
    forall id :: id in b.cards ==>
      var c := b.cards[id];
      && c.pipeline in b.pipelines && b.pipelines[c.pipeline] == c.org
      && c.stage in b.stages && b.stages[c.stage].pipeline == c.pipeline
  }

  /** A card has a closing time exactly when it is closed. */
  ghost predicate ClosedWhenTimed(b: Board) {
    forall id :: id in b.cards ==> (b.cards[id].status != Open <==> b.cards[id].closedAt.Some?)
  }

  ghost predicate Inv(b: Board) {
    Distinct(b.cards) && Anchored(b) && ClosedWhenTimed(b)
  }

  // ------------------------------------------------------------------ steps

  predicate KnownStage(stages: map<Id, Stage>, p: Id, s: Id) {
    s in stages && stages[s].pipeline == p
  }

  function KeptIds(dtos: seq<StageDto>): set<Id> {
    set d | d in dtos && d.id.Some? :: d.id.value
  }

  function Orphans(b: Board, p: Id, dtos: seq<StageDto>): set<Id> {
    set s | s in b.stages && b.stages[s].pipeline == p && s !in KeptIds(dtos)
  }

  /** The stage table after the first `n` rows of the new list were written; none if a row is unknown. */
  function Written(stages: map<Id, Stage>, p: Id, dtos: seq<StageDto>, n: nat): Option<map<Id, Stage>>
    requires n <= |dtos|
  {
    if n == 0 then Some(stages)
    else
      var before := Written(stages, p, dtos, n - 1);
      if before.None? then None else WriteRow(before.value, p, dtos[n - 1], n - 1)
  }

  function WriteRow(stages: map<Id, Stage>, p: Id, d: StageDto, i: nat): Option<map<Id, Stage>> {
    var order := if d.order.Some? then d.order.value else i;
    if d.id.None? then Some(stages[d.freshId := Stage(p, d.kind, order)])
    else if d.id.value !in stages then None
    else Some(stages[d.id.value := stages[d.id.value].(kind := d.kind, order := order)])
  }

  /** The database gives every new row an id that is not in use, and no two the same one. */
  ghost predicate FreshIds(stages: map<Id, Stage>, dtos: seq<StageDto>) {
    && (forall d :: d in dtos ==> d.freshId !in stages)
    && forall i, j :: 0 <= i < j < |dtos| && dtos[i].id.None? && dtos[j].id.None? ==> dtos[i].freshId != dtos[j].freshId
  }

  /** A step the service carries out; any other request leaves the tables alone. */
  ghost predicate Legal(b: Board, op: Op) {
    match op
    case Create(id, c) =>
      && id !in b.cards
      && c.pipeline in b.pipelines && b.pipelines[c.pipeline] == c.org
      && KnownStage(b.stages, c.pipeline, c.stage)
      && c.status == Open && c.closedAt.None? && c.outreach.None?
      && IsNextIndex(b.cards, c.pipeline, c.stage, c.order)
    case Remove(id) => id in b.cards
    case Move(id, toStage, toIndex, now) => id in b.cards && KnownStage(b.stages, b.cards[id].pipeline, toStage)
    case UpsertStages(p, dtos) =>
      && p in b.pipelines
      && FreshIds(b.stages, dtos)
      && (forall id :: id in b.cards ==> b.cards[id].stage !in Orphans(b, p, dtos))
      && Written(b.stages - Orphans(b, p, dtos), p, dtos, |dtos|).Some?
  }

  ghost function Apply(b: Board, op: Op): Board {
    if !Legal(b, op) then b
    else match op
      case Create(id, c) => b.(cards := b.cards[id := c])
      case Remove(id) => b.(cards := b.cards - {id})
      case Move(id, toStage, toIndex, now) =>
        b.(cards := Moved(b.cards, id, toStage, b.stages[toStage].kind, toIndex, now))
      case UpsertStages(p, dtos) =>
        b.(stages := Written(b.stages - Orphans(b, p, dtos), p, dtos, |dtos|).value)
  }

  ghost function Run(b: Board, ops: seq<Op>): Board
    decreases |ops|
  {
    if ops == [] then b else Run(Apply(b, ops[0]), ops[1..])
  }

  // ------------------------------------------------------------- every run

  lemma {:induction false} WrittenKeepsStages(stages: map<Id, Stage>, p: Id, dtos: seq<StageDto>, n: nat)
    requires n <= |dtos| && forall d :: d in dtos ==> d.freshId !in stages
    ensures var w := Written(stages, p, dtos, n);
      w.Some? ==> forall s :: s in stages ==> s in w.value && w.value[s].pipeline == stages[s].pipeline
  {
    if n > 0 {
      WrittenKeepsStages(stages, p, dtos, n - 1);
      assert dtos[n - 1] in dtos;
    }
  }

  lemma ApplyKeepsInv(b: Board, op: Op)
    requires Inv(b)
    ensures Inv(Apply(b, op))
  {
    if Legal(b, op) {
      match op
      case Create(id, c) => NextIndexTops(b.cards, c.pipeline, c.stage, c.order);
      case Remove(id) =>
      case Move(id, toStage, toIndex, now) =>
        MoveKeepsDistinct(b.cards, id, toStage, b.stages[toStage].kind, toIndex, now);
      case UpsertStages(p, dtos) =>
        WrittenKeepsStages(b.stages - Orphans(b, p, dtos), p, dtos, |dtos|);
    }
  }

  /** Whatever is created, removed, dragged or restaged, orders stay distinct and no card loses its stage. */
  lemma {:induction false} RunKeepsInv(b: Board, ops: seq<Op>)
    requires Inv(b)
    ensures Inv(Run(b, ops))
    decreases |ops|
  {
    if ops != [] {
      ApplyKeepsInv(b, ops[0]);
      RunKeepsInv(Apply(b, ops[0]), ops[1..]);
    }
  }

  // ------------------------------------------------------ status over a run

  /** The step does not move or remove this card. */
  predicate LeavesAlone(op: Op, id: Id) {
    (op.Remove? || op.Move?) ==> op.id != id
  }

  lemma {:induction false} StatusStays(b: Board, ops: seq<Op>, id: Id)
    requires id in b.cards && forall op :: op in ops ==> LeavesAlone(op, id)
    ensures var v := Run(b, ops); id in v.cards && v.cards[id] == b.cards[id].(order := v.cards[id].order)
    decreases |ops|
  {
    if ops != [] {
      assert LeavesAlone(ops[0], id) && forall op :: op in ops[1..] ==> op in ops;
      StatusStays(Apply(b, ops[0]), ops[1..], id);
    }
  }

  /** A card's stage, status and closing time are what its last move made them, whatever else happens since. */
  lemma LastMoveDecides(b: Board, id: Id, toStage: Id, toIndex: int, now: int, since: seq<Op>)
    requires Legal(b, Move(id, toStage, toIndex, now)) && forall op :: op in since ==> LeavesAlone(op, id)
    ensures var v := Run(Apply(b, Move(id, toStage, toIndex, now)), since);
      && id in v.cards
      && Settles(b.cards[id], v.cards[id].(order := toIndex), toStage, b.stages[toStage].kind, toIndex, now)
  {
    var moved := Apply(b, Move(id, toStage, toIndex, now));
    StatusStays(moved, since, id);
    MovedMovesOne(b.cards, id, toStage, b.stages[toStage].kind, toIndex, now);
  }

  /** The step does not move the card to a normal stage, at this point of the run, nor remove it. */
  ghost predicate NeverReopened(b: Board, ops: seq<Op>, id: Id)
    decreases |ops|
  {
    ops != [] ==>
      && (ops[0].Remove? ==> ops[0].id != id)
      && (ops[0].Move? && ops[0].id == id && ops[0].toStage in b.stages ==> !b.stages[ops[0].toStage].kind.NormalStage?)
      && NeverReopened(Apply(b, ops[0]), ops[1..], id)
  }

  /** A closed card keeps its first closing time until it is moved to a normal stage again. */
  lemma {:induction false} FirstClosingStays(b: Board, ops: seq<Op>, id: Id)
    requires id in b.cards && b.cards[id].closedAt.Some? && NeverReopened(b, ops, id)
    ensures var v := Run(b, ops); id in v.cards && v.cards[id].closedAt == b.cards[id].closedAt
    decreases |ops|
  {
    if ops != [] { FirstClosingStays(Apply(b, ops[0]), ops[1..], id); }
  }

  /** Every card's status goes with the kind of its stage. */
  ghost predicate StatusFits(b: Board) {
    forall id :: id in b.cards && b.cards[id].stage in b.stages ==>
      Fits(b.cards[id].status, b.stages[b.cards[id].stage].kind)
  }

  /** The row that has the last word on a stage gives it this kind. */
  predicate KindKept(dtos: seq<StageDto>, stage: Id, kind: StageKind) {
    forall i :: 0 <= i < |dtos| && SpeaksLast(dtos, stage, i, |dtos|) ==> dtos[i].kind == kind
  }

  /** The steps that keep it: no card is created on a closing stage, and no stage with cards changes its kind. */
  ghost predicate KeepsFit(b: Board, op: Op)
    requires Inv(b) && Legal(b, op)
  {
    match op
    case Create(_, c) => b.stages[c.stage].kind.NormalStage?
    case UpsertStages(_, dtos) =>
      forall id :: id in b.cards ==> KindKept(dtos, b.cards[id].stage, b.stages[b.cards[id].stage].kind)
    case _ => true
  }

  /** Moves and removals always keep statuses in step with stages; the other steps exactly under that condition. */
  lemma StepKeepsFitIff(b: Board, op: Op)
    requires Inv(b) && StatusFits(b) && Legal(b, op)
    ensures StatusFits(Apply(b, op)) <==> KeepsFit(b, op)
  {
    match op
    case Create(id, c) =>
      assert Apply(b, op).cards[id] == c;
    case Remove(id) =>
    case Move(id, toStage, toIndex, now) =>
      MovedMovesOne(b.cards, id, toStage, b.stages[toStage].kind, toIndex, now);
    case UpsertStages(p, dtos) => RestagingKeepsFitIff(b, p, dtos);
  }

  lemma RestagingKeepsFitIff(b: Board, p: Id, dtos: seq<StageDto>)
    requires Inv(b) && StatusFits(b) && Legal(b, UpsertStages(p, dtos))
    ensures StatusFits(Apply(b, UpsertStages(p, dtos))) <==> KeepsFit(b, UpsertStages(p, dtos))
  {
    var v := Apply(b, UpsertStages(p, dtos));
    var kept := b.stages - Orphans(b, p, dtos);
    WrittenSays(kept, p, dtos, |dtos|);
    forall id | id in b.cards
      ensures var s := b.cards[id].stage;
        s in v.stages && (v.stages[s].kind == b.stages[s].kind <==> KindKept(dtos, s, b.stages[s].kind))
    {
      var s := b.cards[id].stage;
      assert s in kept;
      if i :| 0 <= i < |dtos| && Named(dtos[i]) == s {
        var j := LastNaming(dtos, s, |dtos|, i);
        assert SpeaksLast(dtos, s, j, |dtos|);
      }
    }
    forall id | id in b.cards ensures Fits(b.cards[id].status, b.stages[b.cards[id].stage].kind) {
    }
  }

  // ------------------------------------------------------------ stage lists

  function Named(d: StageDto): Id {
    if d.id.Some? then d.id.value else d.freshId
  }

  /** Of the first `n` rows, row `i` is the last about this stage. */
  predicate SpeaksLast(dtos: seq<StageDto>, stage: Id, i: nat, n: nat)
    requires i < n <= |dtos|
  {
    Named(dtos[i]) == stage && forall j :: i < j < n ==> Named(dtos[j]) != stage
  }

  lemma {:induction false} LastNaming(dtos: seq<StageDto>, stage: Id, n: nat, i: nat) returns (last: nat)
    requires i < n <= |dtos| && Named(dtos[i]) == stage
    ensures last < n && SpeaksLast(dtos, stage, last, n)
    decreases n - i
  {
    if j :| i < j < n && Named(dtos[j]) == stage {
      last := LastNaming(dtos, stage, n, j);
    } else {
      last := i;
    }
  }

  /** A stage is as the last row about it says, numbered by the row's place unless it gives a number. */
  predicate AsSaid(stage: Stage, d: StageDto, i: nat) {
    stage.kind == d.kind && stage.order == if d.order.Some? then d.order.value else i
  }

  ghost predicate AddsNamed(before: map<Id, Stage>, after: map<Id, Stage>, dtos: seq<StageDto>, n: nat)
    requires n <= |dtos|
  {
    && (forall s :: s in before ==> s in after)
    && (forall i :: 0 <= i < n ==> Named(dtos[i]) in after)
    && forall s :: s in after && s !in before ==> exists i :: 0 <= i < n && Named(dtos[i]) == s
  }

  ghost predicate FollowsRows(after: map<Id, Stage>, dtos: seq<StageDto>, n: nat)
    requires n <= |dtos|
  {
    forall s, i :: 0 <= i < n && SpeaksLast(dtos, s, i, n) ==> s in after && AsSaid(after[s], dtos[i], i)
  }

  ghost predicate LeavesOthers(before: map<Id, Stage>, after: map<Id, Stage>, p: Id, dtos: seq<StageDto>, n: nat)
    requires n <= |dtos|
  {
    && (forall s :: s in before && s in after && (forall i :: 0 <= i < n ==> Named(dtos[i]) != s) ==>
          after[s] == before[s])
    && forall s :: s in after ==> after[s].pipeline == if s in before then before[s].pipeline else p
  }

  /** What the first `n` rows make of a stage table. */
  ghost predicate Says(before: map<Id, Stage>, after: map<Id, Stage>, p: Id, dtos: seq<StageDto>, n: nat)
    requires n <= |dtos|
  {
    AddsNamed(before, after, dtos, n) && FollowsRows(after, dtos, n) && LeavesOthers(before, after, p, dtos, n)
  }

  lemma {:induction false} WrittenSays(stages: map<Id, Stage>, p: Id, dtos: seq<StageDto>, n: nat)
    requires n <= |dtos| && FreshIds(stages, dtos) && Written(stages, p, dtos, n).Some?
    ensures Says(stages, Written(stages, p, dtos, n).value, p, dtos, n)
  {
    if n > 0 {
      var before := Written(stages, p, dtos, n - 1).value;
      WrittenSays(stages, p, dtos, n - 1);
      RowAddsNamed(stages, before, p, dtos, n);
      RowIsFollowed(before, p, dtos, n);
      RowLeavesOthers(stages, before, p, dtos, n);
    }
  }

  lemma RowAddsNamed(stages: map<Id, Stage>, before: map<Id, Stage>, p: Id, dtos: seq<StageDto>, n: nat)
    requires 0 < n <= |dtos| && AddsNamed(stages, before, dtos, n - 1)
    requires WriteRow(before, p, dtos[n - 1], n - 1).Some?
    ensures AddsNamed(stages, WriteRow(before, p, dtos[n - 1], n - 1).value, dtos, n)
  {
    var after := WriteRow(before, p, dtos[n - 1], n - 1).value;
    assert after.Keys == before.Keys + {Named(dtos[n - 1])};
  }

  lemma RowIsFollowed(before: map<Id, Stage>, p: Id, dtos: seq<StageDto>, n: nat)
    requires 0 < n <= |dtos| && FollowsRows(before, dtos, n - 1) && WriteRow(before, p, dtos[n - 1], n - 1).Some?
    ensures FollowsRows(WriteRow(before, p, dtos[n - 1], n - 1).value, dtos, n)
  {
    var after := WriteRow(before, p, dtos[n - 1], n - 1).value;
    forall s, i | 0 <= i < n && SpeaksLast(dtos, s, i, n)
      ensures s in after && AsSaid(after[s], dtos[i], i)
    {
      if i < n - 1 {
        assert SpeaksLast(dtos, s, i, n - 1);
        assert Named(dtos[n - 1]) != s;
      }
    }
  }

  lemma RowLeavesOthers(stages: map<Id, Stage>, before: map<Id, Stage>, p: Id, dtos: seq<StageDto>, n: nat)
    requires 0 < n <= |dtos| && FreshIds(stages, dtos) && AddsNamed(stages, before, dtos, n - 1)
    requires LeavesOthers(stages, before, p, dtos, n - 1) && WriteRow(before, p, dtos[n - 1], n - 1).Some?
    ensures LeavesOthers(stages, WriteRow(before, p, dtos[n - 1], n - 1).value, p, dtos, n)
  {
    var d := dtos[n - 1];
    assert d in dtos;
    assert Named(dtos[n - 1]) == Named(d);
  }

  /** The row is for a stage that is there, or that an earlier row has added. */
  predicate Writable(stages: map<Id, Stage>, dtos: seq<StageDto>, i: nat)
    requires i < |dtos|
  {
    dtos[i].id.Some? ==>
      dtos[i].id.value in stages || exists j :: 0 <= j < i && dtos[j].id.None? && dtos[j].freshId == dtos[i].id.value
  }

  lemma {:induction false} WrittenIffWritable(stages: map<Id, Stage>, p: Id, dtos: seq<StageDto>, n: nat)
    requires n <= |dtos|
    ensures Written(stages, p, dtos, n).Some? <==> forall i :: 0 <= i < n ==> Writable(stages, dtos, i)
    ensures Written(stages, p, dtos, n).Some? ==> forall s :: s in Written(stages, p, dtos, n).value <==>
      s in stages || exists j :: 0 <= j < n && dtos[j].id.None? && dtos[j].freshId == s
  {
    if n > 0 {
      WrittenIffWritable(stages, p, dtos, n - 1);
      var before := Written(stages, p, dtos, n - 1);
      assert before.Some? ==> (WriteRow(before.value, p, dtos[n - 1], n - 1).Some? <==> Writable(stages, dtos, n - 1));
    }
  }

  /** The stage is of the pipeline and no row names it. */
  predicate LeftOut(stages: map<Id, Stage>, p: Id, dtos: seq<StageDto>, s: Id) {
    s in stages && stages[s].pipeline == p && forall i :: 0 <= i < |dtos| ==> dtos[i].id != Some(s)
  }

  lemma OrphansAreLeftOut(b: Board, p: Id, dtos: seq<StageDto>)
    ensures forall s :: s in Orphans(b, p, dtos) <==> LeftOut(b.stages, p, dtos, s)
    ensures forall i :: 0 <= i < |dtos| ==>
      (Writable(b.stages - Orphans(b, p, dtos), dtos, i) <==> Writable(b.stages, dtos, i))
  {
    forall s ensures s in KeptIds(dtos) <==> exists i :: 0 <= i < |dtos| && dtos[i].id == Some(s) {
      if i :| 0 <= i < |dtos| && dtos[i].id == Some(s) { assert dtos[i] in dtos; }
    }
  }

  /** Removing a card takes it out of its list and leaves every other list as it was. */
  lemma RemoveRefinesLists(cards: Cards, id: Id, p: Id, s: Id)
    requires Distinct(cards) && id in cards
    ensures Distinct(cards - {id}) && Column(cards - {id}, p, s) == Rest(cards, id, p, s)
  {
    assert IsColumn(cards - {id}, p, s, Rest(cards, id, p, s));
    ColumnIs(cards - {id}, p, s, Rest(cards, id, p, s));
  }

  /** Removal renumbers nothing, so a dense column stays dense exactly when its last card goes. */
  lemma RemoveStaysDenseIff(cards: Cards, id: Id, p: Id, s: Id)
    requires Dense(cards, p, s) && id in cards && InColumn(cards[id], p, s)
    ensures Dense(cards - {id}, p, s) <==> cards[id].order == |Rest(cards, id, p, s)|
  {
    var rest, k := Rest(cards, id, p, s), cards[id].order;
    RemoveRefinesLists(cards, id, p, s);
    DenseRestHole(cards, id, p, s);
    assert forall i :: 0 <= i < |rest| ==> rest[i] in rest;
    if k < |rest| { assert (cards - {id})[rest[k]].order == k + 1; }
  }

  /** A created card is appended to its column; every other list stays as it was. */
  lemma CreateAppends(cards: Cards, id: Id, c: Card, p: Id, s: Id)
    requires Distinct(cards) && id !in cards && IsNextIndex(cards, c.pipeline, c.stage, c.order)
    ensures Distinct(cards[id := c])
    ensures Column(cards[id := c], p, s) == Column(cards, p, s) + if InColumn(c, p, s) then [id] else []
  {
    var after, col := cards[id := c], Column(cards, p, s);
    NextIndexTops(cards, c.pipeline, c.stage, c.order);
    ColumnIsColumn(cards, p, s);
    assert forall i :: 0 <= i < |col| ==> col[i] in col;
    ColumnIs(after, p, s, col + if InColumn(c, p, s) then [id] else []);
  }

  /** On a column numbered 0, 1, .. the new card has the next number. */
  lemma CreateStaysDense(cards: Cards, id: Id, c: Card)
    requires Dense(cards, c.pipeline, c.stage) && id !in cards
    requires IsNextIndex(cards, c.pipeline, c.stage, c.order)
    ensures c.order == |Column(cards, c.pipeline, c.stage)|
    ensures Dense(cards[id := c], c.pipeline, c.stage)
  {
    var col := Column(cards, c.pipeline, c.stage);
    CreateAppends(cards, id, c, c.pipeline, c.stage);
    ColumnIsColumn(cards, c.pipeline, c.stage);
    NextIndexTops(cards, c.pipeline, c.stage, c.order);
    if col == [] {
      assert forall x :: x in Members(cards, c.pipeline, c.stage) ==> x in col;
    } else {
      assert col[|col| - 1] in col;
      var last :| IsLast(cards, c.pipeline, c.stage, last) && c.order == cards[last].order + 1;
      assert last in col;
    }
  }

  // ---------------------------------------- cards written by automation rules

  /** add_to_pipeline inserts a row without an order: the column default 0. */
  predicate AutomationAdds(cards: Cards, id: Id, c: Card) {
    id !in cards && c.order == 0 && c.status == Open && c.closedAt.None?
  }

  /** move_pipeline_stage rewrites the stage and the closing fields, never the order, of a card that is elsewhere. */
  function AutomationMoved(cards: Cards, id: Id, toStage: Id, kind: StageKind, now: int): Cards
    requires id in cards
  {
    var c := cards[id].(stage := toStage);
    if cards[id].stage == toStage then cards
    else cards[id := match kind
                     case NormalStage => c
                     case WonStage => c.(status := Won, closedAt := Some(now))
                     case LostStage => c.(status := Lost, closedAt := Some(now))]
  }

  /** A rule's insertion keeps orders distinct exactly when no card of the column has order 0. */
  lemma AutomationAddKeepsDistinctIff(cards: Cards, id: Id, c: Card)
    requires Distinct(cards) && AutomationAdds(cards, id, c)
    ensures Distinct(cards[id := c]) <==>
      forall x :: x in cards && InColumn(cards[x], c.pipeline, c.stage) ==> cards[x].order != 0
  {
    var after := cards[id := c];
    if x :| x in cards && InColumn(cards[x], c.pipeline, c.stage) && cards[x].order == 0 {
      assert after[x].order == after[id].order;
    }
  }

  /** A rule's move keeps orders distinct exactly when the target column has no card with that order. */
  lemma AutomationMoveKeepsDistinctIff(cards: Cards, id: Id, toStage: Id, kind: StageKind, now: int)
    requires Distinct(cards) && id in cards
    ensures Distinct(AutomationMoved(cards, id, toStage, kind, now)) <==>
      forall x :: x in cards && x != id && InColumn(cards[x], cards[id].pipeline, toStage)
        ==> cards[x].order != cards[id].order
  {
    var after := AutomationMoved(cards, id, toStage, kind, now);
    var p, order := cards[id].pipeline, cards[id].order;
    if x :| x in cards && x != id && InColumn(cards[x], p, toStage) && cards[x].order == order {
      assert after[x].order == after[id].order;
    }
  }

  /** It settles a card that is elsewhere, except that its order stays and on a normal stage it stays open. */
  lemma AutomationMoveSettles(cards: Cards, id: Id, toStage: Id, kind: StageKind, now: int)
    requires id in cards && cards[id].status == Open && cards[id].closedAt.None?
    ensures var after := AutomationMoved(cards, id, toStage, kind, now);
      && after.Keys == cards.Keys && (forall x :: x in cards && x != id ==> after[x] == cards[x])
      && if cards[id].stage == toStage then after == cards
         else Settles(cards[id], after[id], toStage, kind, cards[id].order, now)
  {
  }

  /** Two columns of one card each, both numbered 0: a rule's move makes the orders collide. */
  lemma AutomationMoveCanCollide(c: Card, toStage: Id)
    requires c.stage != toStage && c.order == 0
    ensures var cards: Cards := map[0 := c, 1 := c.(stage := toStage)];
      Distinct(cards) && !Distinct(AutomationMoved(cards, 0, toStage, NormalStage, 0))
  {
    var cards: Cards := map[0 := c, 1 := c.(stage := toStage)];
    AutomationMoveKeepsDistinctIff(cards, 0, toStage, NormalStage, 0);
    assert InColumn(cards[1], c.pipeline, toStage);
  }

  // ---------------------------------------------------------------- service

  predicate IsFirstStage(stages: map<Id, Stage>, p: Id, s: Id) {
    && s in stages && stages[s].pipeline == p
    && forall x :: x in stages && stages[x].pipeline == p ==> stages[s].order <= stages[x].order
  }

  lemma {:induction false} HasFirstStage(stages: map<Id, Stage>, p: Id, ids: set<Id>) returns (first: Id)
    requires ids != {} && forall x :: x in ids ==> x in stages && stages[x].pipeline == p
    ensures first in ids && forall x :: x in ids ==> stages[first].order <= stages[x].order
    decreases |ids|
  {
    first :| first in ids;
    if ids != {first} {
      var rest := HasFirstStage(stages, p, ids - {first});
      if stages[rest].order < stages[first].order { first := rest; }
    }
  }

  /** The lists change by taking the card out and putting it in. */
  ghost predicate MovesLists(before: Cards, after: Cards, id: Id, toStage: Id, toIndex: int)
    requires Distinct(before) && id in before
  {
    forall p, s :: Column(after, p, s) == MovedColumn(before, id, toStage, toIndex, p, s)
  }

  lemma ApplyMovesOne(b: Board, id: Id, toStage: Id, toIndex: int, now: int)
    requires Legal(b, Move(id, toStage, toIndex, now))
    ensures var after := Apply(b, Move(id, toStage, toIndex, now)).cards;
      && MovesOne(b.cards, after, id, toStage, b.stages[toStage].kind, toIndex, now)
      && (Distinct(b.cards) ==> Distinct(after) && MovesLists(b.cards, after, id, toStage, toIndex))
  {
    var kind := b.stages[toStage].kind;
    MovedMovesOne(b.cards, id, toStage, kind, toIndex, now);
    if Distinct(b.cards) {
      forall p, s
        ensures Distinct(Moved(b.cards, id, toStage, kind, toIndex, now))
        ensures Column(Moved(b.cards, id, toStage, kind, toIndex, now), p, s)
             == MovedColumn(b.cards, id, toStage, toIndex, p, s)
      {
        MoveRefinesLists(b.cards, id, toStage, kind, toIndex, now, p, s);
      }
      MoveKeepsDistinct(b.cards, id, toStage, kind, toIndex, now);
    }
  }

  /** The stage table without the stages left out. */
  ghost predicate IsWithout(stages: map<Id, Stage>, kept: map<Id, Stage>, p: Id, dtos: seq<StageDto>) {
    && (forall s :: s in kept <==> s in stages && !LeftOut(stages, p, dtos, s))
    && forall s :: s in kept ==> kept[s] == stages[s]
  }

  /** No card is on a stage that is left out, and every row can be written. */
  ghost predicate Restageable(b: Board, p: Id, dtos: seq<StageDto>) {
    && (forall id :: id in b.cards ==> !LeftOut(b.stages, p, dtos, b.cards[id].stage))
    && forall i :: 0 <= i < |dtos| ==> Writable(b.stages, dtos, i)
  }

  /** The stages left out are gone and the rows say what the others are. */
  ghost predicate Restages(before: map<Id, Stage>, after: map<Id, Stage>, p: Id, dtos: seq<StageDto>) {
    && (forall s :: s in before ==> (s in after <==> !LeftOut(before, p, dtos, s)))
    && exists kept :: IsWithout(before, kept, p, dtos) && Says(kept, after, p, dtos, |dtos|)
  }

  /** Restaging is carried out exactly for restageable lists, and then restages. */
  lemma RestagingIsLegal(b: Board, p: Id, dtos: seq<StageDto>)
    requires FreshIds(b.stages, dtos) && p in b.pipelines
    ensures Legal(b, UpsertStages(p, dtos)) <==> Restageable(b, p, dtos)
    ensures Legal(b, UpsertStages(p, dtos)) ==> Restages(b.stages, Apply(b, UpsertStages(p, dtos)).stages, p, dtos)
  {
    var kept := b.stages - Orphans(b, p, dtos);
    OrphansAreLeftOut(b, p, dtos);
    WrittenIffWritable(kept, p, dtos, |dtos|);
    if Legal(b, UpsertStages(p, dtos)) {
      WrittenSays(kept, p, dtos, |dtos|);
      LeftOutIsGone(b, p, dtos);
      assert IsWithout(b.stages, kept, p, dtos);
    }
  }

  lemma LeftOutIsGone(b: Board, p: Id, dtos: seq<StageDto>)
    requires Legal(b, UpsertStages(p, dtos))
    ensures var after := Apply(b, UpsertStages(p, dtos)).stages;
      forall s :: s in b.stages ==> (s in after <==> !LeftOut(b.stages, p, dtos, s))
  {
    var kept := b.stages - Orphans(b, p, dtos);
    OrphansAreLeftOut(b, p, dtos);
    WrittenSays(kept, p, dtos, |dtos|);
    forall s | s in b.stages && LeftOut(b.stages, p, dtos, s)
      ensures s !in Written(kept, p, dtos, |dtos|).value
    {
      forall i | 0 <= i < |dtos| ensures Named(dtos[i]) != s {
        assert dtos[i] in dtos;
      }
    }
  }

  class PipelinesService {
    var pipelines: map<Id, Id>
    var stages: map<Id, Stage>
    var cards: Cards

    constructor (pipelines: map<Id, Id>, stages: map<Id, Stage>, cards: Cards)
      ensures State() == Board(pipelines, stages, cards)
    {
      this.pipelines, this.stages, this.cards := pipelines, stages, cards;
    }

    ghost function State(): Board
      reads this
    {
      Board(pipelines, stages, cards)
    }

    method AssertPipeline(p: Id, org: Id) returns (r: Result<(), Error>)
      ensures r.Ok? <==> p in pipelines && pipelines[p] == org
      ensures r == Err(NotFound) <==> p !in pipelines
      ensures r != Err(BadRequest)
    {
      if p !in pipelines { return Err(NotFound); }
      if pipelines[p] != org { return Err(Forbidden); }
      return Ok(());
    }

    /** One bulk update: add `delta` to every order in the range of a column. */
    method ShiftOrders(p: Id, s: Id, lo: int, hi: Option<int>, delta: int)
      modifies this`cards
      ensures cards == map x | x in old(cards) ::
        var c := old(cards)[x];
        if InColumn(c, p, s) && lo <= c.order && (hi.None? || c.order <= hi.value)
        then c.(order := c.order + delta) else c
    {
      cards := map x | x in cards ::
        var c := cards[x];
        if InColumn(c, p, s) && lo <= c.order && (hi.None? || c.order <= hi.value)
        then c.(order := c.order + delta) else c;
    }

    /** Closes the gap the card leaves and opens one where it goes. */
    method Renumber(cardId: Id, toStage: Id, toIndex: int)
      requires cardId in cards && !(cards[cardId].stage == toStage && cards[cardId].order == toIndex)
      modifies this`cards
      ensures cards == map x | x in old(cards) ::
        if x == cardId then old(cards)[x]
        else old(cards)[x].(order := Slid(old(cards)[x], old(cards)[cardId], toStage, toIndex))
    {
      var card := cards[cardId];
      var fromIndex := card.order;
      if card.stage == toStage {
        if fromIndex < toIndex {
          ShiftOrders(card.pipeline, card.stage, fromIndex + 1, Some(toIndex), -1);
        } else {
          ShiftOrders(card.pipeline, card.stage, toIndex, Some(fromIndex - 1), 1);
        }
      } else {
        RenumberAcross(card.pipeline, card.stage, fromIndex, toStage, toIndex);
      }
    }

    /** Two columns: one closes its gap, the other opens one. */
    method RenumberAcross(p: Id, from: Id, fromIndex: int, to: Id, toIndex: int)
      requires from != to
      modifies this`cards
      ensures cards == map x | x in old(cards) ::
        var c := old(cards)[x];
        if InColumn(c, p, from) && c.order > fromIndex then c.(order := c.order - 1)
        else if InColumn(c, p, to) && c.order >= toIndex then c.(order := c.order + 1)
        else c
    {
      ShiftOrders(p, from, fromIndex + 1, None, -1);
      ShiftOrders(p, to, toIndex, None, 1);
    }

    /** Drag-drop. `now` is the clock when the request is handled. */
    method MoveCard(cardId: Id, org: Id, toStage: Id, toIndex: int, now: int) returns (r: Result<Card, Error>)
      modifies this`cards
      ensures r.Ok? <==>
        && cardId in old(cards) && old(cards)[cardId].org == org
        && toStage in stages && stages[toStage].pipeline == old(cards)[cardId].pipeline
      ensures r.Err? ==>
        r.error == if cardId in old(cards) && old(cards)[cardId].org == org then BadRequest else NotFound
      ensures r.Err? ==> State() == old(State())
      ensures r.Ok? ==>
        && State() == Apply(old(State()), Move(cardId, toStage, toIndex, now))
        && cardId in cards && r.value == cards[cardId]
        && MovesOne(old(cards), cards, cardId, toStage, stages[toStage].kind, toIndex, now)
        && (Distinct(old(cards)) ==> MovesLists(old(cards), cards, cardId, toStage, toIndex))
    {
      if cardId !in cards || cards[cardId].org != org { return Err(NotFound); }
      var card := cards[cardId];
      if toStage !in stages || stages[toStage].pipeline != card.pipeline { return Err(BadRequest); }
      ghost var before := State();
      ApplyMovesOne(before, cardId, toStage, toIndex, now);
      WriteMove(cardId, toStage, toIndex, now);
      r := Ok(cards[cardId]);
    }

    /** The writes of a drag-drop that was accepted. */
    method WriteMove(cardId: Id, toStage: Id, toIndex: int, now: int)
      requires Legal(State(), Move(cardId, toStage, toIndex, now))
      modifies this`cards
      ensures State() == Apply(old(State()), Move(cardId, toStage, toIndex, now))
    {
      var card := cards[cardId];
      var newStatus, newClosedAt := card.status, card.closedAt;
      match stages[toStage].kind {
        case WonStage =>
          newStatus := Won;
          if newClosedAt.None? { newClosedAt := Some(now); }
        case LostStage =>
          newStatus := Lost;
          if newClosedAt.None? { newClosedAt := Some(now); }
        case NormalStage =>
          newStatus, newClosedAt := Open, None;
      }

      if card.stage == toStage && card.order == toIndex { return; }
      Renumber(cardId, toStage, toIndex);
      cards := cards[cardId := cards[cardId].(stage := toStage, order := toIndex,
                                              status := newStatus, closedAt := newClosedAt)];
    }

    method RemoveCard(cardId: Id, org: Id) returns (r: Result<(), Error>)
      modifies this`cards
      ensures r == Err(NotFound) <==> !(cardId in old(cards) && old(cards)[cardId].org == org)
      ensures r.Err? ==> r == Err(NotFound) && State() == old(State())
      ensures r.Ok? ==> State() == Apply(old(State()), Remove(cardId)) && cards == old(cards) - {cardId}
    {
      if cardId !in cards || cards[cardId].org != org { return Err(NotFound); }
      cards := cards - {cardId};
      r := Ok(());
    }

    /** Position one past the last card of a column. */
    method NextIndexInStage(p: Id, s: Id) returns (n: int)
      ensures IsNextIndex(cards, p, s, n)
      ensures forall id :: id in cards && InColumn(cards[id], p, s) ==> cards[id].order < n
      ensures if forall id :: id in cards ==> !InColumn(cards[id], p, s) then n == 0
              else exists id :: id in cards && InColumn(cards[id], p, s) && cards[id].order == n - 1
    {
      var members := set id | id in cards && InColumn(cards[id], p, s);
      assert members == Members(cards, p, s);
      if members == {} {
        assert forall id :: id in cards && InColumn(cards[id], p, s) ==> id in members;
        return 0;
      }
      ghost var w := HasLast(cards, p, s, members);
      assert IsLast(cards, p, s, w);
      var last :| last in cards && IsLast(cards, p, s, last);
      return cards[last].order + 1;
    }

    /**
     * `titled` tells whether a non-blank title is left once the conversation's
     * contact has supplied one; `newId` is the id the database assigns.
     */
    method CreateCard(newId: Id, pipeline: Id, org: Id, stage: Option<Id>, contact: Option<Id>,
                      conversation: Option<Id>, conversations: map<Id, Conversation>, titled: bool)
      returns (r: Result<Card, Error>)
      requires newId !in cards
      modifies this`cards
      ensures r.Ok? <==>
        && pipeline in pipelines && pipelines[pipeline] == org && titled
        && (conversation.Some? ==>
              && (forall x :: x in old(cards) ==>
                    !(old(cards)[x].pipeline == pipeline && old(cards)[x].conversation == conversation))
              && conversation.value in conversations && conversations[conversation.value].org == org)
        && (if stage.Some? then stage.value in stages && stages[stage.value].pipeline == pipeline
            else exists s :: s in stages && stages[s].pipeline == pipeline)
      ensures r.Err? ==> State() == old(State())
      ensures r.Err? ==> r.error == (if pipeline !in pipelines then NotFound
                                     else if pipelines[pipeline] != org then Forbidden else BadRequest)
      ensures r.Ok? ==>
        && State() == Apply(old(State()), Create(newId, r.value))
        && Legal(old(State()), Create(newId, r.value))
        && cards == old(cards)[newId := r.value]
        && r.value == Card(org, pipeline, r.value.stage, r.value.order, Open, None, r.value.contact, conversation, None)
        && IsNextIndex(old(cards), pipeline, r.value.stage, r.value.order)
        && (if stage.Some? then r.value.stage == stage.value
            else forall s :: s in stages && stages[s].pipeline == pipeline ==>
              r.value.stage in stages && stages[r.value.stage].order <= stages[s].order)
        && r.value.contact == (if contact.Some? || conversation.None? then contact
                               else Some(conversations[conversation.value].contact))
    {
      var ok := AssertPipeline(pipeline, org);
      if ok.Err? { return Err(ok.error); }

      var contactId := contact;
      if conversation.Some? {
        if exists x :: x in cards && cards[x].pipeline == pipeline && cards[x].conversation == conversation {
          return Err(BadRequest);
        }
        if conversation.value !in conversations || conversations[conversation.value].org != org {
          return Err(BadRequest);
        }
        if contactId.None? { contactId := Some(conversations[conversation.value].contact); }
      }

      var stageId: Id;
      if stage.None? {
        var own := set s | s in stages && stages[s].pipeline == pipeline;
        if own == {} {
          assert forall s :: s in stages && stages[s].pipeline == pipeline ==> s in own;
          return Err(BadRequest);
        }
        ghost var w := HasFirstStage(stages, pipeline, own);
        assert IsFirstStage(stages, pipeline, w);
        var first :| first in stages && IsFirstStage(stages, pipeline, first);
        assert IsFirstStage(stages, pipeline, first);
        stageId := first;
      } else {
        if stage.value !in stages || stages[stage.value].pipeline != pipeline { return Err(BadRequest); }
        stageId := stage.value;
      }

      var nextOrder := NextIndexInStage(pipeline, stageId);
      if !titled { return Err(BadRequest); }
      var card := Card(org, pipeline, stageId, nextOrder, Open, None, contactId, conversation, None);
      cards := cards[newId := card];
      r := Ok(card);
      assert KnownStage(stages, pipeline, stageId);
    }

    /** Writes the rows one by one; stops at one that names a stage that is not there. */
    method WriteRows(pipeline: Id, dtos: seq<StageDto>) returns (written: bool)
      modifies this`stages
      ensures written <==> Written(old(stages), pipeline, dtos, |dtos|).Some?
      ensures written ==> Some(stages) == Written(old(stages), pipeline, dtos, |dtos|)
    {
      for i := 0 to |dtos|
        invariant Written(old(stages), pipeline, dtos, i) == Some(stages)
      {
        var row := WriteRow(stages, pipeline, dtos[i], i);
        if row.None? {
          WrittenStops(old(stages), pipeline, dtos, i + 1);
          return false;
        }
        stages := row.value;
      }
      return true;
    }

    /** Replaces the stage list of a pipeline; refuses to drop a stage that still holds cards. */
    method UpsertStages(pipeline: Id, org: Id, dtos: seq<StageDto>) returns (r: Result<(), Error>)
      requires FreshIds(stages, dtos)
      modifies this`stages
      ensures r.Ok? <==>
        && pipeline in pipelines && pipelines[pipeline] == org
        && Restageable(old(State()), pipeline, dtos)
      ensures r.Err? ==> State() == old(State())
      ensures r.Ok? ==> State() == Apply(old(State()), Op.UpsertStages(pipeline, dtos))
      ensures r.Ok? ==> Restages(old(stages), stages, pipeline, dtos)
    {
      var ok := AssertPipeline(pipeline, org);
      if ok.Err? { return Err(ok.error); }

      var before := stages;
      var keepIds := set d | d in dtos && d.id.Some? :: d.id.value;
      var orphans := set s | s in stages && stages[s].pipeline == pipeline && s !in keepIds;
      assert orphans == Orphans(old(State()), pipeline, dtos);
      RestagingIsLegal(old(State()), pipeline, dtos);
      if exists id :: id in cards && cards[id].stage in orphans {
        return Err(BadRequest);
      }
      stages := stages - orphans;
      var written := WriteRows(pipeline, dtos);
      if !written {
        stages := before;
        return Err(NotFound);
      }
      r := Ok(());
    }
  }

  lemma {:induction false} WrittenStops(stages: map<Id, Stage>, p: Id, dtos: seq<StageDto>, n: nat)
    requires n <= |dtos| && Written(stages, p, dtos, n).None?
    ensures Written(stages, p, dtos, |dtos|).None?
    decreases |dtos| - n
  {
    if n < |dtos| { WrittenStops(stages, p, dtos, n + 1); }
  }
}

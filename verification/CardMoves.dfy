/**
 * What dragging a card means. `moveCard` renumbers ranges of rows; here its
 * renumbering is one map from old to new rows, and the lemmas show that the
 * lists people see change by one removal and one insertion.
 */
module CardMoves {
  import opened Common
  import opened CardOrder

  datatype StageKind = NormalStage | WonStage | LostStage

  // ------------------------------------------------------------ renumbering

  /** The order number another card has after `m` moved to `toIndex` of `toStage`. */
  function Slid(c: Card, m: Card, toStage: Id, toIndex: int): int {
    if c.pipeline != m.pipeline then c.order
    else if m.stage == toStage && c.stage == toStage then
      if m.order < c.order <= toIndex then c.order - 1
      else if toIndex <= c.order < m.order then c.order + 1
      else c.order
    else if c.stage == m.stage && c.order > m.order then c.order - 1
    else if c.stage == toStage && c.order >= toIndex then c.order + 1
    else c.order
  }

  /** The moved card itself: position, status and closing time. */
  function Landed(m: Card, toStage: Id, kind: StageKind, toIndex: int, now: int): Card {
    if m.stage == toStage && m.order == toIndex then m
    else
      var closed := if m.closedAt.Some? then m.closedAt else Some(now);
      m.(stage := toStage, order := toIndex,
         status := match kind case NormalStage => Open case WonStage => Won case LostStage => Lost,
         closedAt := if kind.NormalStage? then None else closed)
  }

  function Moved(cards: Cards, id: Id, toStage: Id, kind: StageKind, toIndex: int, now: int): Cards
    requires id in cards
  {
    map x | x in cards ::
      if x == id then Landed(cards[id], toStage, kind, toIndex, now)
      else cards[x].(order := Slid(cards[x], cards[id], toStage, toIndex))
  }

  /** The status is the one that goes with a stage of this kind. */
  predicate Fits(status: CardStatus, kind: StageKind) {
    && (status == Won <==> kind.WonStage?) && (status == Lost <==> kind.LostStage?)
    && (status == Open <==> kind.NormalStage?)
  }

  /**
   * What a move does to the card itself: put where it already is, it stays as it was; elsewhere it takes the
   * status of the stage, keeps a closing time it has, gets one when it is closed now, and loses it when reopened.
   */
  predicate Settles(was: Card, c: Card, toStage: Id, kind: StageKind, toIndex: int, now: int) {
    && c.stage == toStage && c.order == toIndex
    && c == was.(stage := c.stage, order := c.order, status := c.status, closedAt := c.closedAt)
    && if was.stage == toStage && was.order == toIndex then c == was
       else
         && Fits(c.status, kind)
         && (kind.NormalStage? ==> c.closedAt == None)
         && (!kind.NormalStage? && was.closedAt.Some? ==> c.closedAt == was.closedAt)
         && (!kind.NormalStage? && was.closedAt.None? ==> c.closedAt == Some(now))
  }

  /** The moved card settles; the others keep everything but their order number. */
  ghost predicate MovesOne(before: Cards, after: Cards, id: Id, toStage: Id, kind: StageKind, toIndex: int, now: int) {
    && after.Keys == before.Keys && id in before
    && Settles(before[id], after[id], toStage, kind, toIndex, now)
    && forall x :: x in before && x != id ==> after[x] == before[x].(order := after[x].order)
  }

  lemma MovedMovesOne(cards: Cards, id: Id, toStage: Id, kind: StageKind, toIndex: int, now: int)
    requires id in cards
    ensures MovesOne(cards, Moved(cards, id, toStage, kind, toIndex, now), id, toStage, kind, toIndex, now)
  {
  }

  /**
   * Where the moved card is inserted: just after the cards numbered `toIndex`
   * or less when it moves down its own column, just before the cards numbered
   * `toIndex` or more otherwise.
   */
  function Bound(m: Card, toStage: Id, toIndex: int): int {
    if m.stage == toStage && m.order < toIndex then toIndex + 1 else toIndex
  }

  lemma SlidKeepsOrder(a: Card, b: Card, m: Card, toStage: Id, toIndex: int)
    requires a.pipeline == b.pipeline && a.stage == b.stage
    requires InColumn(a, m.pipeline, m.stage) ==> a.order != m.order && b.order != m.order
    ensures a.order < b.order ==> Slid(a, m, toStage, toIndex) < Slid(b, m, toStage, toIndex)
    ensures InColumn(a, m.pipeline, toStage) ==>
      if a.order < Bound(m, toStage, toIndex) then Slid(a, m, toStage, toIndex) < toIndex
      else Slid(a, m, toStage, toIndex) > toIndex
  {
  }

  lemma MoveKeepsDistinct(cards: Cards, id: Id, toStage: Id, kind: StageKind, toIndex: int, now: int)
    requires Distinct(cards) && id in cards
    ensures Distinct(Moved(cards, id, toStage, kind, toIndex, now))
  {
    var m, after := cards[id], Moved(cards, id, toStage, kind, toIndex, now);
    forall a, b | a in after && b in after && a != b
      && after[a].pipeline == after[b].pipeline && after[a].stage == after[b].stage
      ensures after[a].order != after[b].order
    {
      if a != id && b != id {
        SlidKeepsOrder(cards[a], cards[b], m, toStage, toIndex);
        SlidKeepsOrder(cards[b], cards[a], m, toStage, toIndex);
      } else {
        var o := if a == id then b else a;
        SlidKeepsOrder(cards[o], cards[o], m, toStage, toIndex);
      }
    }
  }

  /** The other cards of a column, in order. */
  ghost function Rest(cards: Cards, id: Id, p: Id, s: Id): (rest: seq<Id>)
    requires Distinct(cards)
    ensures Rising(cards, rest)
    ensures forall x :: x in rest <==> x in cards && x != id && InColumn(cards[x], p, s)
  {
    ColumnIsColumn(cards, p, s);
    WithoutFacts(cards, Column(cards, p, s), id);
    Without(Column(cards, p, s), id)
  }

  /**
   * The column a list of cards becomes: the moved card taken out and, in the
   * target column, put back at the bound.
   */
  ghost function MovedColumn(cards: Cards, id: Id, toStage: Id, toIndex: int, p: Id, s: Id): seq<Id>
    requires Distinct(cards) && id in cards
  {
    var rest := Rest(cards, id, p, s);
    if p == cards[id].pipeline && s == toStage
    then InsertAt(rest, CountBelow(cards, rest, Bound(cards[id], toStage, toIndex)), id)
    else rest
  }

  lemma RestKeepsRising(cards: Cards, id: Id, toStage: Id, kind: StageKind, toIndex: int, now: int, p: Id, s: Id)
    requires Distinct(cards) && id in cards
    ensures Rising(Moved(cards, id, toStage, kind, toIndex, now), Rest(cards, id, p, s))
  {
    var m, after := cards[id], Moved(cards, id, toStage, kind, toIndex, now);
    var rest := Rest(cards, id, p, s);
    forall i, j | 0 <= i < j < |rest|
      ensures after[rest[i]].order < after[rest[j]].order
    {
      assert rest[i] in rest && rest[j] in rest;
      SlidKeepsOrder(cards[rest[i]], cards[rest[j]], m, toStage, toIndex);
    }
    assert forall i :: 0 <= i < |rest| ==> rest[i] in rest;
  }

  lemma LandsAtBound(cards: Cards, id: Id, toStage: Id, kind: StageKind, toIndex: int, now: int)
    requires Distinct(cards) && id in cards
    ensures var p := cards[id].pipeline;
      var rest := Rest(cards, id, p, toStage);
      IsColumn(Moved(cards, id, toStage, kind, toIndex, now), p, toStage,
               InsertAt(rest, CountBelow(cards, rest, Bound(cards[id], toStage, toIndex)), id))
  {
    var m, after := cards[id], Moved(cards, id, toStage, kind, toIndex, now);
    var rest := Rest(cards, id, m.pipeline, toStage);
    var k := CountBelow(cards, rest, Bound(m, toStage, toIndex));
    RestKeepsRising(cards, id, toStage, kind, toIndex, now, m.pipeline, toStage);
    CountBelowSplits(cards, rest, Bound(m, toStage, toIndex));
    forall i | 0 <= i < |rest|
      ensures if i < k then after[rest[i]].order < toIndex else after[rest[i]].order > toIndex
    {
      assert rest[i] in rest;
      SlidKeepsOrder(cards[rest[i]], cards[rest[i]], m, toStage, toIndex);
    }
    InsertRises(after, rest, k, id);
  }

  /** Range shifts on order numbers are a list removal and a list insertion. */
  lemma MoveRefinesLists(cards: Cards, id: Id, toStage: Id, kind: StageKind, toIndex: int, now: int, p: Id, s: Id)
    requires Distinct(cards) && id in cards
    ensures var after := Moved(cards, id, toStage, kind, toIndex, now);
      Distinct(after) && Column(after, p, s) == MovedColumn(cards, id, toStage, toIndex, p, s)
  {
    MoveKeepsDistinct(cards, id, toStage, kind, toIndex, now);
    var after := Moved(cards, id, toStage, kind, toIndex, now);
    if p == cards[id].pipeline && s == toStage {
      LandsAtBound(cards, id, toStage, kind, toIndex, now);
    } else {
      RestKeepsRising(cards, id, toStage, kind, toIndex, now, p, s);
      assert IsColumn(after, p, s, Rest(cards, id, p, s));
    }
    ColumnIs(after, p, s, MovedColumn(cards, id, toStage, toIndex, p, s));
  }

  lemma InsertAtEach(rest: seq<Id>, k: nat, id: Id)
    requires k <= |rest|
    ensures |InsertAt(rest, k, id)| == |rest| + 1
    ensures forall i :: 0 <= i <= |rest| ==>
      InsertAt(rest, k, id)[i] == if i < k then rest[i] else if i == k then id else rest[i - 1]
    ensures forall x :: x in InsertAt(rest, k, id) <==> x == id || x in rest
  {
    assert rest == rest[..k] + rest[k..];
  }

  lemma InsertRises(cards: Cards, rest: seq<Id>, k: nat, id: Id)
    requires k <= |rest| && id in cards && Rising(cards, rest)
    requires forall i :: 0 <= i < |rest| ==>
      if i < k then cards[rest[i]].order < cards[id].order else cards[rest[i]].order > cards[id].order
    ensures Rising(cards, InsertAt(rest, k, id))
    ensures forall x :: x in InsertAt(rest, k, id) <==> x == id || x in rest
  {
    var out := InsertAt(rest, k, id);
    InsertAtEach(rest, k, id);
    forall i, j | 0 <= i < j < |out|
      ensures out[i] in cards && out[j] in cards && cards[out[i]].order < cards[out[j]].order
    {
      if i < k {
        assert out[i] == rest[i];
        if j > k { assert out[j] == rest[j - 1]; }
      } else {
        assert out[j] == rest[j - 1];
        if i > k { assert out[i] == rest[i - 1]; }
      }
    }
    assert forall i :: 0 <= i < |out| ==> out[i] in out;
  }

  // ------------------------------------------------------- end of a column

  predicate IsLast(cards: Cards, p: Id, s: Id, id: Id) {
    && id in cards && InColumn(cards[id], p, s)
    && forall x :: x in cards && InColumn(cards[x], p, s) ==> cards[x].order <= cards[id].order
  }

  lemma {:induction false} HasLast(cards: Cards, p: Id, s: Id, ids: set<Id>) returns (last: Id)
    requires ids != {} && ids <= Members(cards, p, s)
    ensures last in ids && forall x :: x in ids ==> cards[x].order <= cards[last].order
    decreases |ids|
  {
    last :| last in ids;
    if ids != {last} {
      var rest := HasLast(cards, p, s, ids - {last});
      if cards[rest].order > cards[last].order { last := rest; }
    }
  }

  /** The order number one past the last card: max + 1, or 0 in an empty column. */
  ghost predicate IsNextIndex(cards: Cards, p: Id, s: Id, n: int) {
    if Members(cards, p, s) == {} then n == 0
    else exists id :: IsLast(cards, p, s, id) && n == cards[id].order + 1
  }

  ghost function NextIndex(cards: Cards, p: Id, s: Id): (n: int)
    ensures IsNextIndex(cards, p, s, n)
  {
    if Members(cards, p, s) == {} then 0
    else
      assert exists id :: IsLast(cards, p, s, id) by {
        var w := HasLast(cards, p, s, Members(cards, p, s));
        assert IsLast(cards, p, s, w);
      }
      var id :| IsLast(cards, p, s, id);
      cards[id].order + 1
  }

  lemma NextIndexUnique(cards: Cards, p: Id, s: Id, n: int)
    requires IsNextIndex(cards, p, s, n)
    ensures n == NextIndex(cards, p, s)
  {
    NextIndexTops(cards, p, s, n);
    NextIndexTops(cards, p, s, NextIndex(cards, p, s));
  }

  lemma NextIndexTops(cards: Cards, p: Id, s: Id, n: int)
    requires IsNextIndex(cards, p, s, n)
    ensures forall x :: x in cards && InColumn(cards[x], p, s) ==> cards[x].order < n
  {
    if x :| x in cards && InColumn(cards[x], p, s) {
      assert x in Members(cards, p, s);
    }
  }

  /** Moving a card to the next free index of any stage puts it at the end of that list. */
  lemma MoveToEndAppends(cards: Cards, id: Id, toStage: Id, kind: StageKind, n: int, now: int)
    requires Distinct(cards) && id in cards && IsNextIndex(cards, cards[id].pipeline, toStage, n)
    ensures var p := cards[id].pipeline;
      Column(Moved(cards, id, toStage, kind, n, now), p, toStage) == Rest(cards, id, p, toStage) + [id]
  {
    var p := cards[id].pipeline;
    var rest := Rest(cards, id, p, toStage);
    NextIndexTops(cards, p, toStage, n);
    MoveRefinesLists(cards, id, toStage, kind, n, now, p, toStage);
    assert forall i :: 0 <= i < |rest| ==> rest[i] in rest;
    CountIs(cards, rest, Bound(cards[id], toStage, n), |rest|);
    assert rest[..|rest|] == rest && rest[|rest|..] == [];
  }

  // ------------------------------------------------------------ dense columns

  /** Order numbers 0, 1, .., n-1: what a board shows when nothing was removed. */
  ghost predicate Dense(cards: Cards, p: Id, s: Id) {
    Distinct(cards)
    && var col := Column(cards, p, s);
       forall i :: 0 <= i < |col| ==> col[i] in cards && cards[col[i]].order == i
  }

  lemma {:induction false} WithoutAt(col: seq<Id>, id: Id, pos: nat)
    requires pos < |col| && col[pos] == id
    requires forall i, j :: 0 <= i < j < |col| ==> col[i] != col[j]
    ensures Without(col, id) == col[..pos] + col[pos + 1..]
  {
    if pos == 0 {
      WithoutNone(col[1..], id);
    } else {
      WithoutAt(col[1..], id, pos - 1);
      assert col[..pos] == [col[0]] + col[1..][..pos - 1];
      assert col[1..][pos..] == col[pos + 1..];
    }
  }

  lemma {:induction false} WithoutNone(col: seq<Id>, id: Id)
    requires id !in col
    ensures Without(col, id) == col
  {
    if col != [] { WithoutNone(col[1..], id); }
  }

  /** The other cards of a dense column keep orders 0, 1, ..; without the moved card there is one hole. */
  lemma DenseRest(cards: Cards, id: Id, p: Id, s: Id)
    requires Dense(cards, p, s) && id in cards && !InColumn(cards[id], p, s)
    ensures var rest := Rest(cards, id, p, s);
      forall i :: 0 <= i < |rest| ==> cards[rest[i]].order == i
  {
    ColumnIsColumn(cards, p, s);
    WithoutNone(Column(cards, p, s), id);
  }

  lemma RisingHasNoRepeats(cards: Cards, col: seq<Id>)
    requires Rising(cards, col)
    ensures forall i, j :: 0 <= i < j < |col| ==> col[i] != col[j]
  {
    forall i, j | 0 <= i < j < |col| ensures col[i] != col[j] {
      assert cards[col[i]].order < cards[col[j]].order;
    }
  }

  lemma RestSplits(cards: Cards, id: Id, p: Id, s: Id) returns (pos: nat)
    requires Distinct(cards) && id in cards && InColumn(cards[id], p, s)
    ensures pos < |Column(cards, p, s)| && Column(cards, p, s)[pos] == id
    ensures Rest(cards, id, p, s) == Column(cards, p, s)[..pos] + Column(cards, p, s)[pos + 1..]
  {
    ColumnIsColumn(cards, p, s);
    var col := Column(cards, p, s);
    assert id in col;
    pos :| pos < |col| && col[pos] == id;
    RisingHasNoRepeats(cards, col);
    WithoutAt(col, id, pos);
  }

  lemma DenseRestHole(cards: Cards, id: Id, p: Id, s: Id)
    requires Dense(cards, p, s) && id in cards && InColumn(cards[id], p, s)
    ensures 0 <= cards[id].order <= |Rest(cards, id, p, s)|
    ensures var rest := Rest(cards, id, p, s);
      forall i :: 0 <= i < |rest| ==> cards[rest[i]].order == (if i >= cards[id].order then i + 1 else i)
  {
    var pos := RestSplits(cards, id, p, s);
    var col, rest := Column(cards, p, s), Rest(cards, id, p, s);
    assert pos == cards[id].order;
    forall i | 0 <= i < |rest|
      ensures cards[rest[i]].order == (if i >= pos then i + 1 else i)
    {
      assert rest[i] == if i < pos then col[i] else col[i + 1];
    }
  }

  /** In a dense target, the bound counts exactly `toIndex` cards. */
  lemma DenseCount(cards: Cards, id: Id, toStage: Id, toIndex: nat)
    requires id in cards && Dense(cards, cards[id].pipeline, toStage)
    requires toIndex <= |Rest(cards, id, cards[id].pipeline, toStage)|
    ensures var rest := Rest(cards, id, cards[id].pipeline, toStage);
      CountBelow(cards, rest, Bound(cards[id], toStage, toIndex)) == toIndex
  {
    var m := cards[id];
    var rest := Rest(cards, id, m.pipeline, toStage);
    if m.stage == toStage {
      DenseRestHole(cards, id, m.pipeline, toStage);
    } else {
      DenseRest(cards, id, m.pipeline, toStage);
    }
    CountIs(cards, rest, Bound(m, toStage, toIndex), toIndex);
  }

  /** In dense columns a drop at `toIndex` puts the card at list position `toIndex`, and the target stays dense. */
  lemma DropLandsAtIndex(cards: Cards, id: Id, toStage: Id, kind: StageKind, toIndex: nat, now: int)
    requires id in cards && Dense(cards, cards[id].pipeline, toStage)
    requires toIndex <= |Rest(cards, id, cards[id].pipeline, toStage)|
    ensures var p, after := cards[id].pipeline, Moved(cards, id, toStage, kind, toIndex, now);
      && Column(after, p, toStage) == InsertAt(Rest(cards, id, p, toStage), toIndex, id)
      && Dense(after, p, toStage)
  {
    var m, after := cards[id], Moved(cards, id, toStage, kind, toIndex, now);
    var rest := Rest(cards, id, m.pipeline, toStage);
    MoveRefinesLists(cards, id, toStage, kind, toIndex, now, m.pipeline, toStage);
    DenseCount(cards, id, toStage, toIndex);
    RestSlides(cards, id, toStage, kind, toIndex, now);
    DropNumbers(after, rest, id, toIndex);
  }

  lemma RestSlides(cards: Cards, id: Id, toStage: Id, kind: StageKind, toIndex: nat, now: int)
    requires id in cards && Dense(cards, cards[id].pipeline, toStage)
    requires toIndex <= |Rest(cards, id, cards[id].pipeline, toStage)|
    ensures var after := Moved(cards, id, toStage, kind, toIndex, now);
      var rest := Rest(cards, id, cards[id].pipeline, toStage);
      forall i :: 0 <= i < |rest| ==> rest[i] in after && after[rest[i]].order == (if i < toIndex then i else i + 1)
  {
    var m, after := cards[id], Moved(cards, id, toStage, kind, toIndex, now);
    var rest := Rest(cards, id, m.pipeline, toStage);
    if m.stage == toStage {
      DenseRestHole(cards, id, m.pipeline, toStage);
    } else {
      DenseRest(cards, id, m.pipeline, toStage);
    }
    forall i | 0 <= i < |rest|
      ensures rest[i] in after && after[rest[i]].order == (if i < toIndex then i else i + 1)
    {
      assert rest[i] in rest;
    }
  }

  /** Numbers 0 .. toIndex-1, toIndex, toIndex+1 .. read off the list with the card inserted. */
  lemma DropNumbers(after: Cards, rest: seq<Id>, id: Id, toIndex: nat)
    requires toIndex <= |rest| && id in after && after[id].order == toIndex
    requires forall i :: 0 <= i < |rest| ==>
      rest[i] in after && after[rest[i]].order == (if i < toIndex then i else i + 1)
    ensures var out := InsertAt(rest, toIndex, id);
      forall i :: 0 <= i < |out| ==> out[i] in after && after[out[i]].order == i
  {
  }

  /** A dense column stays dense under a drop exactly when the index is a position of its list without the card. */
  lemma DropStaysDenseIff(cards: Cards, id: Id, toStage: Id, kind: StageKind, toIndex: int, now: int)
    requires id in cards && Dense(cards, cards[id].pipeline, toStage)
    ensures Dense(Moved(cards, id, toStage, kind, toIndex, now), cards[id].pipeline, toStage)
      <==> 0 <= toIndex <= |Rest(cards, id, cards[id].pipeline, toStage)|
  {
    var p, after := cards[id].pipeline, Moved(cards, id, toStage, kind, toIndex, now);
    var rest := Rest(cards, id, p, toStage);
    if 0 <= toIndex <= |rest| {
      DropLandsAtIndex(cards, id, toStage, kind, toIndex, now);
    } else {
      MoveRefinesLists(cards, id, toStage, kind, toIndex, now, p, toStage);
      var k := CountBelow(cards, rest, Bound(cards[id], toStage, toIndex));
      InsertAtEach(rest, k, id);
      assert Column(after, p, toStage)[k] == id && after[id].order == toIndex;
    }
  }

  /** .. and the column it left is dense again: the gap is closed. */
  lemma LeftColumnStaysDense(cards: Cards, id: Id, toStage: Id, kind: StageKind, toIndex: int, now: int)
    requires id in cards && Dense(cards, cards[id].pipeline, cards[id].stage) && cards[id].stage != toStage
    ensures Dense(Moved(cards, id, toStage, kind, toIndex, now), cards[id].pipeline, cards[id].stage)
  {
    var m := cards[id];
    var left := Rest(cards, id, m.pipeline, m.stage);
    MoveRefinesLists(cards, id, toStage, kind, toIndex, now, m.pipeline, m.stage);
    DenseRestHole(cards, id, m.pipeline, m.stage);
    assert forall i :: 0 <= i < |left| ==> left[i] in left;
  }

  /** Sending a card to the end of the column it is already in always leaves a hole. */
  lemma MoveToOwnEndLeavesHole(cards: Cards, id: Id, kind: StageKind, n: int, now: int)
    requires id in cards && Dense(cards, cards[id].pipeline, cards[id].stage)
    requires IsNextIndex(cards, cards[id].pipeline, cards[id].stage, n)
    ensures !Dense(Moved(cards, id, cards[id].stage, kind, n, now), cards[id].pipeline, cards[id].stage)
  {
    var m, after := cards[id], Moved(cards, id, cards[id].stage, kind, n, now);
    var rest := Rest(cards, id, m.pipeline, m.stage);
    MoveToEndAppends(cards, id, m.stage, kind, n, now);
    DenseRestHole(cards, id, m.pipeline, m.stage);
    assert id in Members(cards, m.pipeline, m.stage);
    var last :| IsLast(cards, m.pipeline, m.stage, last) && n == cards[last].order + 1;
    assert n > |rest| by {
      if m.order < |rest| {
        var top := rest[|rest| - 1];
        assert top in rest;
      }
    }
    assert (rest + [id])[|rest|] == id && after[id].order == n;
  }
}

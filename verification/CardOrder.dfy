/**
 * Card rows of the kanban board and the order numbers that place them in a
 * column. A column is read back the way the board reads it: the cards of one
 * (pipeline, stage) sorted by `order`. Order numbers may have gaps; what keeps
 * a column readable is that they are pairwise distinct.
 */
module CardOrder {
  import opened Common

  /** Row ids are opaque; numbers stand in for them. */
  type Id = nat

  datatype CardStatus = Open | Won | Lost

  /** metadata.outreach of a recovery card. */
  datatype Outreach = Outreach(attempts: int, lastSentAt: int)

  datatype Card = Card(
    org: Id,
    pipeline: Id,
    stage: Id,
    order: int,
    status: CardStatus,
    closedAt: Option<int>,
    contact: Option<Id>,
    conversation: Option<Id>,
    outreach: Option<Outreach>
  )

  type Cards = map<Id, Card>

  predicate InColumn(c: Card, p: Id, s: Id) {
    c.pipeline == p && c.stage == s
  }

  ghost predicate Distinct(cards: Cards) {
    forall a, b :: a in cards && b in cards && a != b
      && cards[a].pipeline == cards[b].pipeline && cards[a].stage == cards[b].stage
      ==> cards[a].order != cards[b].order
  }

  // ---------------------------------------------------------------- columns

  ghost predicate Rising(cards: Cards, col: seq<Id>) {
    && (forall i :: 0 <= i < |col| ==> col[i] in cards)
    && (forall i, j :: 0 <= i < j < |col| ==> cards[col[i]].order < cards[col[j]].order)
  }

  /** `col` lists exactly the cards of the column, in strictly rising order. */
  ghost predicate IsColumn(cards: Cards, p: Id, s: Id, col: seq<Id>) {
    && Rising(cards, col)
    && (forall id :: id in col <==> id in cards && InColumn(cards[id], p, s))
  }

  ghost function Members(cards: Cards, p: Id, s: Id): set<Id> {
    set id | id in cards && InColumn(cards[id], p, s)
  }

  ghost predicate Leads(cards: Cards, ids: set<Id>, m: Id) {
    m in ids && m in cards && forall x :: x in ids && x in cards ==> cards[m].order <= cards[x].order
  }

  lemma {:induction false} HasLead(cards: Cards, ids: set<Id>)
    requires ids != {} && ids <= cards.Keys
    ensures exists m :: Leads(cards, ids, m)
    decreases |ids|
  {
    var a :| a in ids;
    if ids == {a} {
      assert Leads(cards, ids, a);
    } else {
      HasLead(cards, ids - {a});
      var m :| Leads(cards, ids - {a}, m);
      assert Leads(cards, ids, if cards[a].order <= cards[m].order then a else m);
    }
  }

  ghost function Sorted(cards: Cards, ids: set<Id>): (col: seq<Id>)
    requires ids <= cards.Keys
    ensures forall x :: x in col <==> x in ids
    decreases |ids|
  {
    if ids == {} then []
    else
      HasLead(cards, ids);
      var m :| Leads(cards, ids, m);
      [m] + Sorted(cards, ids - {m})
  }

  /** The column as the board reads it back. */
  ghost function Column(cards: Cards, p: Id, s: Id): seq<Id> {
    Sorted(cards, Members(cards, p, s))
  }

  lemma {:induction false} SortedRises(cards: Cards, ids: set<Id>)
    requires ids <= cards.Keys
    requires forall a, b :: a in ids && b in ids && a != b ==> cards[a].order != cards[b].order
    ensures Rising(cards, Sorted(cards, ids))
    decreases |ids|
  {
    if ids != {} {
      HasLead(cards, ids);
      var col := Sorted(cards, ids);
      var m := col[0];
      var rest := Sorted(cards, ids - {m});
      assert col == [m] + rest;
      SortedRises(cards, ids - {m});
      forall j | 0 < j < |col|
        ensures col[j] in cards && cards[m].order < cards[col[j]].order
      {
        assert col[j] == rest[j - 1] && rest[j - 1] in rest;
      }
    }
  }

  lemma ColumnIsColumn(cards: Cards, p: Id, s: Id)
    requires Distinct(cards)
    ensures IsColumn(cards, p, s, Column(cards, p, s))
  {
    SortedRises(cards, Members(cards, p, s));
  }

  /** A strictly rising listing of the same cards is unique. */
  lemma {:induction false} RisingUnique(cards: Cards, a: seq<Id>, b: seq<Id>)
    requires Rising(cards, a) && Rising(cards, b)
    requires forall x :: x in a <==> x in b
    ensures a == b
    decreases |a|
  {
    assert a != [] ==> a[0] in b;
    assert b != [] ==> b[0] in a;
    if a != [] {
      assert a[0] == b[0];
      TailMembers(cards, a);
      TailMembers(cards, b);
      RisingUnique(cards, a[1..], b[1..]);
      assert a == [a[0]] + a[1..] && b == [b[0]] + b[1..];
    }
  }

  lemma TailMembers(cards: Cards, a: seq<Id>)
    requires Rising(cards, a) && a != []
    ensures forall x :: x in a[1..] <==> x in a && x != a[0]
  {
    assert a == [a[0]] + a[1..];
    forall i | 0 <= i < |a[1..]| ensures a[1..][i] != a[0] {
      assert a[1..][i] == a[i + 1];
    }
  }

  /** The column read back is the only listing that is one. */
  lemma ColumnIs(cards: Cards, p: Id, s: Id, col: seq<Id>)
    requires Distinct(cards) && IsColumn(cards, p, s, col)
    ensures Column(cards, p, s) == col
  {
    ColumnIsColumn(cards, p, s);
    RisingUnique(cards, Column(cards, p, s), col);
  }

  // ------------------------------------------------- list view of a drag-drop

  /** The list without one card. */
  ghost function Without(col: seq<Id>, id: Id): (r: seq<Id>) {
    if col == [] then []
    else if col[0] == id then Without(col[1..], id)
    else [col[0]] + Without(col[1..], id)
  }

  /** How many cards of a rising list come before a bound. */
  ghost function CountBelow(cards: Cards, col: seq<Id>, bound: int): (k: nat)
    requires forall x :: x in col ==> x in cards
    ensures k <= |col|
  {
    if col == [] || cards[col[0]].order >= bound then 0
    else 1 + CountBelow(cards, col[1..], bound)
  }

  ghost function InsertAt(col: seq<Id>, k: nat, id: Id): seq<Id>
    requires k <= |col|
  {
    col[..k] + [id] + col[k..]
  }

  lemma {:induction false} WithoutFacts(cards: Cards, col: seq<Id>, id: Id)
    requires Rising(cards, col)
    ensures Rising(cards, Without(col, id))
    ensures forall x :: x in Without(col, id) <==> x in col && x != id
  {
    if col != [] {
      TailMembers(cards, col);
      WithoutFacts(cards, col[1..], id);
      assert col == [col[0]] + col[1..];
      var tail := Without(col[1..], id);
      if col[0] != id {
        forall j | 0 <= j < |tail| ensures cards[col[0]].order < cards[tail[j]].order {
          assert tail[j] in col[1..];
        }
      }
    }
  }

  lemma {:induction false} CountBelowSplits(cards: Cards, col: seq<Id>, bound: int)
    requires Rising(cards, col)
    ensures forall i :: 0 <= i < |col| ==> (cards[col[i]].order < bound <==> i < CountBelow(cards, col, bound))
  {
    if col != [] && cards[col[0]].order < bound {
      CountBelowSplits(cards, col[1..], bound);
      forall i | 0 < i < |col|
        ensures cards[col[i]].order < bound <==> i < CountBelow(cards, col, bound)
      {
        assert col[i] == col[1..][i - 1];
      }
    }
  }

  lemma {:induction false} CountIs(cards: Cards, col: seq<Id>, bound: int, k: nat)
    requires k <= |col| && forall x :: x in col ==> x in cards
    requires forall i :: 0 <= i < k ==> cards[col[i]].order < bound
    requires k < |col| ==> cards[col[k]].order >= bound
    ensures CountBelow(cards, col, bound) == k
  {
    if k > 0 {
      CountIs(cards, col[1..], bound, k - 1);
    }
  }
}

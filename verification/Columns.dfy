/** `renumber_column`: distinct, gapless positions in one column. */
module Columns {
  import opened Orders
  import opened Tasks

  ghost predicate Enumerates(keys: seq<Id>, b: Board) {
    NoDup(keys) && forall id :: id in keys <==> id in b
  }

  predicate InColumn(b: Board, project: Id, status: Status, id: Id) {
    id in b && b[id].project == project && b[id].status == status
  }

  function PositionIn(b: Board, id: Id): int {
    if id in b then b[id].position else 0
  }

  /** The column without the moved card, sorted by position. `keys` is whatever
      order the map happened to be iterated in; it decides only ties. */
  function OtherCards(b: Board, project: Id, task: Id, status: Status, keys: seq<Id>): (r: seq<Id>)
    ensures forall id :: id in r <==> id in keys && id != task && InColumn(b, project, status, id)
    ensures NoDup(keys) ==> NoDup(r)
  {
    if keys == [] then []
    else
      var rest := OtherCards(b, project, task, status, keys[1..]);
      if keys[0] != task && InColumn(b, project, status, keys[0]) then [keys[0]] + rest else rest
  }

  function Clamp(position: int, length: nat): nat {
    if position <= 0 then 0 else if position >= length then length else position
  }

  /** The column in its new order, the moved card at its clamped place. */
  function Placed(b: Board, project: Id, task: Id, status: Status, newPosition: int, keys: seq<Id>): seq<Id> {
    var sorted := SortBy((x, y) => PositionIn(b, x) <= PositionIn(b, y), OtherCards(b, project, task, status, keys));
    Splice(sorted, Clamp(newPosition, |sorted|), task)
  }

  function Numbered(b: Board, order: seq<Id>): Board {
    map id | id in b :: if id in order then b[id].(position := IndexOf(order, id)) else b[id]
  }

  /** `renumber_column`. */
  function Renumbered(
    b: Board, project: Id, task: Id, status: Status, newPosition: int, keys: seq<Id>): Board
  {
    Numbered(b, Placed(b, project, task, status, newPosition, keys))
  }

  lemma SortedCards(b: Board, cards: seq<Id>)
    requires NoDup(cards)
    ensures var sorted := SortBy((x, y) => PositionIn(b, x) <= PositionIn(b, y), cards);
      && NoDup(sorted)
      && (forall id :: id in sorted <==> id in cards)
      && forall i, j :: 0 <= i < j < |sorted| ==> PositionIn(b, sorted[i]) <= PositionIn(b, sorted[j])
  {
    var le := (x, y) => PositionIn(b, x) <= PositionIn(b, y);
    SortKeepsNoDup(le, cards);
    SortOrders(le, cards);
    var sorted := SortBy(le, cards);
    forall i, j | 0 <= i < j < |sorted| ensures PositionIn(b, sorted[i]) <= PositionIn(b, sorted[j]) {
      assert le(sorted[i], sorted[j]);
    }
  }

  lemma PlacedOnce(b: Board, project: Id, task: Id, status: Status, newPosition: int, keys: seq<Id>)
    requires NoDup(keys)
    ensures NoDup(Placed(b, project, task, status, newPosition, keys))
  {
    var cards := OtherCards(b, project, task, status, keys);
    SortedCards(b, cards);
    var sorted := SortBy((x, y) => PositionIn(b, x) <= PositionIn(b, y), cards);
    SpliceMembers(sorted, Clamp(newPosition, |sorted|), task);
  }

  lemma PlacedFacts(b: Board, project: Id, task: Id, status: Status, newPosition: int, keys: seq<Id>)
    requires Enumerates(keys, b)
    ensures var order := Placed(b, project, task, status, newPosition, keys);
      var at := Clamp(newPosition, |order| - 1);
      && NoDup(order)
      && (forall id :: id in order <==> id == task || InColumn(b, project, status, id))
      && at < |order| && order[at] == task
      && forall i, j :: 0 <= i < j < |order| && i != at && j != at ==>
           PositionIn(b, order[i]) <= PositionIn(b, order[j])
  {
    var cards := OtherCards(b, project, task, status, keys);
    SortedCards(b, cards);
    var sorted := SortBy((x, y) => PositionIn(b, x) <= PositionIn(b, y), cards);
    SpliceMembers(sorted, Clamp(newPosition, |sorted|), task);
  }

  ghost function Column(b: Board, project: Id, status: Status): set<Id> {
    set id | id in b && InColumn(b, project, status, id)
  }

  /** The column's positions are exactly 0..n-1. */
  ghost predicate Gapless(b: Board, project: Id, status: Status) {
    var column := Column(b, project, status);
    && (forall id :: id in column ==> 0 <= b[id].position < |column|)
    && (forall x, y :: x in column && y in column && b[x].position == b[y].position ==> x == y)
  }

  /** `Numbered` after the first `n` cards of `order`. */
  function NumberedUpTo(b: Board, order: seq<Id>, n: nat): Board
    requires n <= |order|
  {
    map id | id in b :: if id in order[..n] then b[id].(position := IndexOf(order, id)) else b[id]
  }

  lemma PrefixMember(order: seq<Id>, n: nat, x: Id)
    requires n < |order|
    ensures x in order[..n + 1] <==> x in order[..n] || x == order[n]
  {
    assert order[..n + 1] == order[..n] + [order[n]];
  }

  lemma NextIsUnnumbered(order: seq<Id>, n: nat)
    requires NoDup(order) && n < |order|
    ensures order[n] !in order[..n] && IndexOf(order, order[n]) == n
  {
    IndexOfAt(order, n);
    if order[n] in order[..n] {
      NoDupIndices(order, IndexOf(order[..n], order[n]), n);
    }
  }

  /** Nothing is numbered before the first card, and all of `order` after the last. */
  lemma NumberedEnds(b: Board, order: seq<Id>)
    ensures NumberedUpTo(b, order, 0) == b && NumberedUpTo(b, order, |order|) == Numbered(b, order)
  {
    assert order[..|order|] == order && order[..0] == [];
  }

  lemma NumberedNext(b: Board, order: seq<Id>, n: nat)
    requires NoDup(order) && n < |order|
    ensures var now := NumberedUpTo(b, order, n); var id := order[n];
      NumberedUpTo(b, order, n + 1) == if id in b then now[id := now[id].(position := n)] else now
  {
    var now, next, id := NumberedUpTo(b, order, n), NumberedUpTo(b, order, n + 1), order[n];
    NextIsUnnumbered(order, n);
    forall x | x in b ensures next[x] == if x == id then now[x].(position := n) else now[x] {
      PrefixMember(order, n, x);
    }
  }

  lemma ColumnSize(b: Board, order: seq<Id>, project: Id, status: Status)
    requires NoDup(order) && (forall id :: id in order <==> InColumn(b, project, status, id))
    ensures |Column(b, project, status)| == |order|
  {
    NoDupSize(order);
    assert Column(b, project, status) == Members(order);
  }

  lemma NumberedColumn(b: Board, order: seq<Id>, project: Id, status: Status)
    ensures Column(Numbered(b, order), project, status) == Column(b, project, status)
  {
    forall id ensures InColumn(Numbered(b, order), project, status, id) == InColumn(b, project, status, id) {
    }
  }

  lemma NumberedIsGapless(b: Board, order: seq<Id>, project: Id, status: Status)
    requires NoDup(order) && (forall id :: id in order <==> InColumn(b, project, status, id))
    ensures Gapless(Numbered(b, order), project, status)
  {
    ColumnSize(b, order, project, status);
    NumberedColumn(b, order, project, status);
  }

  /** `r` is `b` with other positions in one column, and no other difference. */
  ghost predicate OnlyPositions(b: Board, r: Board, project: Id, status: Status) {
    && r.Keys == b.Keys
    && forall id :: id in b ==>
         r[id] == if InColumn(b, project, status, id) then b[id].(position := r[id].position) else b[id]
  }

  /** The cards other than `task` that had distinct positions are still in order. */
  ghost predicate KeepsOrder(b: Board, r: Board, project: Id, status: Status, task: Id) {
    forall x, y |
      && InColumn(b, project, status, x) && InColumn(b, project, status, y)
      && x != task && y != task && PositionIn(b, x) < PositionIn(b, y) ::
      PositionIn(r, x) < PositionIn(r, y)
  }

  lemma PlacedBefore(b: Board, order: seq<Id>, at: nat, x: Id, y: Id)
    requires NoDup(order) && at < |order| && x in order && y in order && x != order[at] && y != order[at]
    requires forall i, j :: 0 <= i < j < |order| && i != at && j != at ==> PositionIn(b, order[i]) <= PositionIn(b, order[j])
    requires PositionIn(b, x) < PositionIn(b, y)
    ensures IndexOf(order, x) < IndexOf(order, y)
  {
    var i, j := IndexOf(order, x), IndexOf(order, y);
    var lo, hi := if i < j then i else j, if i < j then j else i;
    assert PositionIn(b, order[lo]) <= PositionIn(b, order[hi]);
  }

  lemma NumberedPosition(b: Board, order: seq<Id>, id: Id)
    requires id in b && id in order
    ensures PositionIn(Numbered(b, order), id) == IndexOf(order, id)
  {
  }

  lemma RenumberedPair(
    b: Board, project: Id, task: Id, status: Status, newPosition: int, keys: seq<Id>, x: Id, y: Id)
    requires Enumerates(keys, b) && InColumn(b, project, status, x) && InColumn(b, project, status, y)
    requires x != task && y != task && PositionIn(b, x) < PositionIn(b, y)
    ensures var r := Renumbered(b, project, task, status, newPosition, keys); PositionIn(r, x) < PositionIn(r, y)
  {
    PlacedFacts(b, project, task, status, newPosition, keys);
    var order := Placed(b, project, task, status, newPosition, keys);
    PlacedBefore(b, order, Clamp(newPosition, |order| - 1), x, y);
    NumberedPosition(b, order, x);
    NumberedPosition(b, order, y);
  }

  lemma RenumberedKeepsOrder(b: Board, project: Id, task: Id, status: Status, newPosition: int, keys: seq<Id>)
    requires Enumerates(keys, b)
    ensures KeepsOrder(b, Renumbered(b, project, task, status, newPosition, keys), project, status, task)
  {
    var r := Renumbered(b, project, task, status, newPosition, keys);
    forall x, y | InColumn(b, project, status, x) && InColumn(b, project, status, y) && x != task && y != task
      && PositionIn(b, x) < PositionIn(b, y)
      ensures PositionIn(r, x) < PositionIn(r, y)
    {
      RenumberedPair(b, project, task, status, newPosition, keys, x, y);
    }
  }

  lemma NumberedOnlyPositions(b: Board, order: seq<Id>, project: Id, status: Status)
    requires forall id :: id in order <==> InColumn(b, project, status, id)
    ensures OnlyPositions(b, Numbered(b, order), project, status)
  {
  }

  /** Renumbering a Task that is already in the column: gapless positions, the
      card at its clamped place, every pair that had distinct positions still in
      order, and nothing else changed, whatever order the map iterates in. */
  lemma RenumberedColumn(
    b: Board, project: Id, task: Id, status: Status, newPosition: int, keys: seq<Id>)
    requires Enumerates(keys, b) && InColumn(b, project, status, task)
    ensures var r := Renumbered(b, project, task, status, newPosition, keys);
      && OnlyPositions(b, r, project, status)
      && Gapless(r, project, status)
      && Column(r, project, status) == Column(b, project, status)
      && PositionIn(r, task) == Clamp(newPosition, |Column(b, project, status)| - 1)
      && KeepsOrder(b, r, project, status, task)
  {
    PlacedFacts(b, project, task, status, newPosition, keys);
    var order := Placed(b, project, task, status, newPosition, keys);
    NumberedOnlyPositions(b, order, project, status);
    NumberedIsGapless(b, order, project, status);
    ColumnSize(b, order, project, status);
    NumberedColumn(b, order, project, status);
    IndexOfAt(order, Clamp(newPosition, |order| - 1));
    RenumberedKeepsOrder(b, project, task, status, newPosition, keys);
  }
}

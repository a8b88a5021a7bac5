/**
 What the stock loops do, said item by item over the rows of the tables: which
 lines move an item, by how much, at what cost, and which movements they leave.
 */
module StockEffects {
  import opened Common
  import opened Sums
  import opened Money
  import opened Stock

  /** The line names item i, and item i is on the shelf, not deleted, and tracked. */
  predicate Names(items: seq<Item>, item: Option<nat>, i: nat) {
    item == Some(i) && i < |items| && !items[i].deleted && items[i].trackStock
  }

  function QtyFor(items: seq<Item>, i: nat): DocLine -> int {
    (l: DocLine) => if Names(items, l.item, i) then l.qty else 0
  }

  /** Quantity times the item's buy price, half up to the cent; an item without a price costs nothing. */
  function CentsFor(items: seq<Item>): DocLine -> int {
    (l: DocLine) =>
      if l.item.Some? && Names(items, l.item, l.item.value) && items[l.item.value].buyPrice.Some?
      then RoundDiv(l.qty * items[l.item.value].buyPrice.value, 1000) else 0
  }

  /** Item i went from one quantity to another, and so did the sum of its movements; its card is as it was. */
  predicate ItemMoved(before: Shelf, after: Shelf, i: nat, change: int) {
    && i < |before.items| == |after.items|
    && after.items[i] == before.items[i].(stock := before.items[i].stock + change)
    && Sum(after.movements, OfItem(i)) == Sum(before.movements, OfItem(i)) + change
  }

  /** The old movements are still there, and the new ones all say why they were made. */
  predicate MovesAdded(before: seq<Movement>, after: seq<Movement>, kind: MovementKind, reference: nat) {
    && before <= after
    && (forall m :: |before| <= m < |after| ==> after[m].kind == kind && after[m].reference == Some(reference))
  }

  /** Every item is lower by what the lines name of it. */
  ghost predicate TakenOff(before: Shelf, after: Shelf, lines: seq<DocLine>, reference: nat) {
    && |after.items| == |before.items| && MovesAdded(before.movements, after.movements, SaleOut, reference)
    && (forall i: nat :: i < |before.items| ==> ItemMoved(before, after, i, -Sum(lines, QtyFor(before.items, i))))
  }

  /** Every item is higher by what the lines name of it. */
  ghost predicate PutOn(before: Shelf, after: Shelf, lines: seq<DocLine>, kind: MovementKind, reference: nat) {
    && |after.items| == |before.items| && MovesAdded(before.movements, after.movements, kind, reference)
    && (forall i: nat :: i < |before.items| ==> ItemMoved(before, after, i, Sum(lines, QtyFor(before.items, i))))
  }

  /** What is left of a quantity after taking back as much of a demand as there is. */
  function LeftOf(stock: int, demand: int): int {
    if demand < stock then stock - demand else 0
  }

  /** Every item is lower by what the lines name of it, or empty. */
  ghost predicate TakenBack(before: Shelf, after: Shelf, lines: seq<DocLine>, reference: nat) {
    && |after.items| == |before.items| && MovesAdded(before.movements, after.movements, VoidMove, reference)
    && (forall i: nat :: i < |before.items| ==>
          ItemMoved(before, after, i,
                    LeftOf(before.items[i].stock, Sum(lines, QtyFor(before.items, i))) - before.items[i].stock))
  }

  predicate InStock(shelf: Shelf, lines: seq<DocLine>) {
    forall i :: 0 <= i < |shelf.items| ==> Sum(lines, QtyFor(shelf.items, i)) <= shelf.items[i].stock
  }

  lemma DemandIsQty(items: seq<Item>, lines: seq<DocLine>, i: nat)
    ensures Sum(lines, Demand(items, i)) == Sum(lines, QtyFor(items, i))
  {
    SumCongruent(lines, lines, Demand(items, i), QtyFor(items, i));
  }

  lemma CostIsCents(items: seq<Item>, lines: seq<DocLine>)
    ensures Sum(lines, LineCost(items)) == Sum(lines, CentsFor(items))
  {
    SumCongruent(lines, lines, LineCost(items), CentsFor(items));
  }

  lemma CardKept(before: Shelf, after: Shelf, i: nat, change: int)
    requires StockInv(before) && StockInv(after) && SameCards(before.items, after.items) && i < |before.items|
    requires after.items[i].stock == before.items[i].stock + change
    ensures ItemMoved(before, after, i, change)
  {
    assert SameCard(before.items[i], after.items[i]);
  }

  lemma {:induction false} DispatchMoves(sh: Shelf, lines: seq<DocLine>, reference: nat)
    requires Dispatch(sh, lines, reference).Ok?
    ensures MovesAdded(sh.movements, Dispatch(sh, lines, reference).value.shelf.movements, SaleOut, reference)
  {
    if lines != [] {
      DispatchMoves(sh, lines[..|lines| - 1], reference);
    }
  }

  lemma {:induction false} RestockMoves(sh: Shelf, lines: seq<DocLine>, kind: MovementKind, reference: nat)
    ensures MovesAdded(sh.movements, Restock(sh, lines, kind, reference).shelf.movements, kind, reference)
  {
    if lines != [] {
      RestockMoves(sh, lines[..|lines| - 1], kind, reference);
    }
  }

  lemma {:induction false} WithdrawMoves(sh: Shelf, lines: seq<DocLine>, reference: nat)
    ensures MovesAdded(sh.movements, Withdraw(sh, lines, reference).movements, VoidMove, reference)
  {
    if lines != [] {
      WithdrawMoves(sh, lines[..|lines| - 1], reference);
    }
  }

  /** A dispatch succeeds exactly when everything is in stock, takes what the lines name, and costs its cents. */
  lemma DispatchEffect(sh: Shelf, lines: seq<DocLine>, reference: nat)
    requires StockInv(sh)
    ensures Dispatch(sh, lines, reference).Ok? <==> InStock(sh, lines)
    ensures Dispatch(sh, lines, reference).Ok? ==>
              var m := Dispatch(sh, lines, reference).value;
              TakenOff(sh, m.shelf, lines, reference) && m.cost == Sum(lines, CentsFor(sh.items))
  {
    DispatchMeaning(sh, lines, reference);
    forall i | 0 <= i < |sh.items| ensures Sum(lines, Demand(sh.items, i)) == Sum(lines, QtyFor(sh.items, i)) {
      DemandIsQty(sh.items, lines, i);
    }
    assert Enough(sh, lines) <==> InStock(sh, lines);
    if Dispatch(sh, lines, reference).Ok? {
      var m := Dispatch(sh, lines, reference).value;
      DispatchMoves(sh, lines, reference);
      CostIsCents(sh.items, lines);
      forall i: nat | i < |sh.items| ensures ItemMoved(sh, m.shelf, i, -Sum(lines, QtyFor(sh.items, i))) {
        CardKept(sh, m.shelf, i, -Sum(lines, QtyFor(sh.items, i)));
      }
    }
  }

  lemma RestockEffect(sh: Shelf, lines: seq<DocLine>, kind: MovementKind, reference: nat)
    requires StockInv(sh)
    ensures var m := Restock(sh, lines, kind, reference);
      PutOn(sh, m.shelf, lines, kind, reference) && m.cost == Sum(lines, CentsFor(sh.items))
  {
    var m := Restock(sh, lines, kind, reference);
    RestockMeaning(sh, lines, kind, reference);
    RestockMoves(sh, lines, kind, reference);
    CostIsCents(sh.items, lines);
    forall i: nat | i < |sh.items| ensures ItemMoved(sh, m.shelf, i, Sum(lines, QtyFor(sh.items, i))) {
      DemandIsQty(sh.items, lines, i);
      CardKept(sh, m.shelf, i, Sum(lines, QtyFor(sh.items, i)));
    }
  }

  lemma WithdrawEffect(sh: Shelf, lines: seq<DocLine>, reference: nat)
    requires StockInv(sh)
    ensures TakenBack(sh, Withdraw(sh, lines, reference), lines, reference)
  {
    var s := Withdraw(sh, lines, reference);
    WithdrawMeaning(sh, lines, reference);
    WithdrawMoves(sh, lines, reference);
    forall i: nat | i < |sh.items|
      ensures ItemMoved(sh, s, i, LeftOf(sh.items[i].stock, Sum(lines, QtyFor(sh.items, i))) - sh.items[i].stock)
    {
      DemandIsQty(sh.items, lines, i);
      CardKept(sh, s, i, LeftOf(sh.items[i].stock, Sum(lines, QtyFor(sh.items, i))) - sh.items[i].stock);
    }
  }
}

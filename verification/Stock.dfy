/**
 Items, the append-only movement list, and the stock loops of the document
 services. Quantities are whole thousandths, unit costs are cents.
 */
module Stock {
  import opened Common
  import opened Sums
  import opened Money

  datatype Item = Item(buyPrice: Option<nat>, trackStock: bool, stock: int, deleted: bool)

  datatype MovementKind = SaleOut | PurchaseIn | VoidMove | Adjustment

  datatype Movement = Movement(item: nat, qty: int, kind: MovementKind, reference: Option<nat>)

  /** A stored document line: the item it moves, if any, and its computed amounts. */
  datatype DocLine = DocLine(item: Option<nat>, qty: nat, net: int, tax: int)

  datatype Shelf = Shelf(items: seq<Item>, movements: seq<Movement>)

  /** Lines without an item, and lines whose item is deleted or untracked, move nothing. */
  predicate Tracked(items: seq<Item>, l: DocLine) {
    l.item.Some? && l.item.value < |items| && !items[l.item.value].deleted && items[l.item.value].trackStock
  }

  function Move(sh: Shelf, i: nat, qty: int, kind: MovementKind, reference: Option<nat>): Shelf
    requires i < |sh.items|
  {
    Shelf(sh.items[i := sh.items[i].(stock := sh.items[i].stock + qty)], sh.movements + [Movement(i, qty, kind, reference)])
  }

  function UnitCost(item: Item): nat {
    if item.buyPrice.Some? then item.buyPrice.value else 0
  }

  /** round2(cost + qty * buyPrice) in cents. */
  function AddCost(cost: int, qty: nat, item: Item): int {
    RoundDiv(cost * 1000 + qty * UnitCost(item), 1000)
  }

  datatype Moved = Moved(shelf: Shelf, cost: int)

  /** Sale confirmation: take every tracked line off the shelf, or fail on the first shortage. */
  function Dispatch(sh: Shelf, lines: seq<DocLine>, reference: nat): Result<Moved> {
    if lines == [] then Ok(Moved(sh, 0))
    else
      var l := lines[|lines| - 1];
      var m :- Dispatch(sh, lines[..|lines| - 1], reference);
      if !Tracked(m.shelf.items, l) then Ok(m)
      else
        var i := l.item.value;
        if m.shelf.items[i].stock < l.qty then Err(Conflict)
        else Ok(Moved(Move(m.shelf, i, 0 - l.qty, SaleOut, Some(reference)), AddCost(m.cost, l.qty, m.shelf.items[i])))
  }

  /** Goods in, and goods back from a voided sale or an issued credit note. */
  function Restock(sh: Shelf, lines: seq<DocLine>, kind: MovementKind, reference: nat): Moved {
    if lines == [] then Moved(sh, 0)
    else
      var l := lines[|lines| - 1];
      var m := Restock(sh, lines[..|lines| - 1], kind, reference);
      if !Tracked(m.shelf.items, l) then m
      else
        var i := l.item.value;
        Moved(Move(m.shelf, i, l.qty, kind, Some(reference)), AddCost(m.cost, l.qty, m.shelf.items[i]))
  }

  /** Voided purchase: take back at most what is still on hand. */
  function Withdraw(sh: Shelf, lines: seq<DocLine>, reference: nat): Shelf {
    if lines == [] then sh
    else
      var l := lines[|lines| - 1];
      var s := Withdraw(sh, lines[..|lines| - 1], reference);
      if !Tracked(s.items, l) then s
      else
        var i := l.item.value;
        Move(s, i, -Min(l.qty, s.items[i].stock), VoidMove, Some(reference))
  }

  /** Manual adjustment of one item; refused when it would leave a negative quantity. */
  function Adjust(sh: Shelf, i: nat, delta: int): Result<Shelf> {
    if delta == 0 then Err(Conflict)
    else if i >= |sh.items| || sh.items[i].deleted then Err(NotFound)
    else if sh.items[i].stock + delta < 0 then Err(Conflict)
    else Ok(Move(sh, i, delta, Adjustment, None))
  }

  /* ------------------------------- invariants ------------------------------- */

  function OfItem(i: nat): Movement -> int {
    (m: Movement) => if m.item == i then m.qty else 0
  }

  /** Every quantity on hand is non-negative and is the sum of the item's movements. */
  predicate StockInv(sh: Shelf) {
    && (forall i :: 0 <= i < |sh.items| ==> sh.items[i].stock >= 0 && sh.items[i].stock == Sum(sh.movements, OfItem(i)))
    && (forall k :: 0 <= k < |sh.movements| ==> sh.movements[k].item < |sh.items|)
  }

  /** Same items up to the quantity on hand. */
  predicate SameCard(a: Item, b: Item) {
    a.buyPrice == b.buyPrice && a.trackStock == b.trackStock && a.deleted == b.deleted
  }

  predicate SameCards(a: seq<Item>, b: seq<Item>) {
    |a| == |b| && forall i :: 0 <= i < |a| ==> SameCard(a[i], b[i])
  }

  /** Total quantity a document moves of item i, over all of its lines. */
  function Demand(items: seq<Item>, i: nat): DocLine -> int {
    (l: DocLine) => if Tracked(items, l) && l.item == Some(i) then l.qty else 0
  }

  function LineCost(items: seq<Item>): DocLine -> int {
    (l: DocLine) => if Tracked(items, l) then RoundDiv(l.qty * UnitCost(items[l.item.value]), 1000) else 0
  }

  lemma MoveKeeps(sh: Shelf, i: nat, qty: int, kind: MovementKind, reference: Option<nat>)
    requires StockInv(sh) && i < |sh.items| && sh.items[i].stock + qty >= 0
    ensures StockInv(Move(sh, i, qty, kind, reference))
  {
    var after := Move(sh, i, qty, kind, reference);
    forall j | 0 <= j < |sh.items| ensures after.items[j].stock >= 0 && after.items[j].stock == Sum(after.movements, OfItem(j)) {
      SumAppend(sh.movements, Movement(i, qty, kind, reference), OfItem(j));
    }
  }

  /** The running cost of a loop over lines is the sum of the rounded line costs. */
  lemma AddCostIsSum(cost: int, qty: nat, item: Item)
    ensures AddCost(cost, qty, item) == cost + RoundDiv(qty * UnitCost(item), 1000)
  {
    RoundDivShift(cost, qty * UnitCost(item), 1000);
  }

  ghost predicate Enough(sh: Shelf, lines: seq<DocLine>) {
    forall i :: 0 <= i < |sh.items| ==> Sum(lines, Demand(sh.items, i)) <= sh.items[i].stock
  }

  ghost predicate Dispatched(sh: Shelf, lines: seq<DocLine>, m: Moved) {
    && StockInv(m.shelf)
    && SameCards(sh.items, m.shelf.items)
    && (forall i :: 0 <= i < |sh.items| ==>
          m.shelf.items[i].stock == sh.items[i].stock - Sum(lines, Demand(sh.items, i)))
    && m.cost == Sum(lines, LineCost(sh.items))
  }

  lemma DispatchLine(sh: Shelf, lines: seq<DocLine>, m: Moved, reference: nat)
    requires lines != [] && Dispatched(sh, lines[..|lines| - 1], m)
    requires Tracked(sh.items, lines[|lines| - 1])
    requires m.shelf.items[lines[|lines| - 1].item.value].stock >= lines[|lines| - 1].qty
    ensures var l := lines[|lines| - 1];
      var i := l.item.value;
      Dispatched(sh, lines, Moved(Move(m.shelf, i, 0 - l.qty, SaleOut, Some(reference)), AddCost(m.cost, l.qty, m.shelf.items[i])))
  {
    var l := lines[|lines| - 1];
    var i := l.item.value;
    MoveKeeps(m.shelf, i, 0 - l.qty, SaleOut, Some(reference));
    AddCostIsSum(m.cost, l.qty, m.shelf.items[i]);
    assert SameCard(sh.items[i], m.shelf.items[i]);
  }

  /**
   A sale can be dispatched exactly when every item covers the document's total
   demand for it, however the demand is spread over lines; the shelf then holds
   exactly that much less and the cost is the sum of the line costs.
   */
  lemma {:induction false} DispatchMeaning(sh: Shelf, lines: seq<DocLine>, reference: nat)
    requires StockInv(sh)
    ensures Dispatch(sh, lines, reference).Ok? <==> Enough(sh, lines)
    ensures Dispatch(sh, lines, reference).Ok? ==> Dispatched(sh, lines, Dispatch(sh, lines, reference).value)
  {
    if lines != [] {
      var n := |lines| - 1;
      var l := lines[n];
      DispatchMeaning(sh, lines[..n], reference);
      EnoughPrefix(sh, lines);
      if Dispatch(sh, lines[..n], reference).Ok? {
        var m := Dispatch(sh, lines[..n], reference).value;
        assert l.item.Some? && l.item.value < |sh.items| ==> SameCard(sh.items[l.item.value], m.shelf.items[l.item.value]);
        if Tracked(sh.items, l) {
          if m.shelf.items[l.item.value].stock >= l.qty {
            DispatchLine(sh, lines, m, reference);
          }
        }
      }
    }
  }

  lemma EnoughPrefix(sh: Shelf, lines: seq<DocLine>)
    requires lines != []
    ensures var l := lines[|lines| - 1];
      Enough(sh, lines) <==>
        && Enough(sh, lines[..|lines| - 1])
        && (Tracked(sh.items, l) ==>
              Sum(lines[..|lines| - 1], Demand(sh.items, l.item.value)) + l.qty <= sh.items[l.item.value].stock)
  {
    var n := |lines| - 1;
    forall i | 0 <= i < |sh.items|
      ensures Sum(lines, Demand(sh.items, i)) == Sum(lines[..n], Demand(sh.items, i)) + Demand(sh.items, i)(lines[n])
    {
    }
  }

  /** Restocking adds exactly the total demand and values it at current cost. */
  lemma {:induction false} RestockMeaning(sh: Shelf, lines: seq<DocLine>, kind: MovementKind, reference: nat)
    requires StockInv(sh)
    ensures var m := Restock(sh, lines, kind, reference);
      && StockInv(m.shelf)
      && SameCards(sh.items, m.shelf.items)
      && (forall i :: 0 <= i < |sh.items| ==>
            m.shelf.items[i].stock == sh.items[i].stock + Sum(lines, Demand(sh.items, i)))
      && m.cost == Sum(lines, LineCost(sh.items))
  {
    if lines != [] {
      var n := |lines| - 1;
      var l := lines[n];
      RestockMeaning(sh, lines[..n], kind, reference);
      var m := Restock(sh, lines[..n], kind, reference);
      assert Tracked(m.shelf.items, l) == Tracked(sh.items, l);
      if Tracked(sh.items, l) {
        var i := l.item.value;
        AddCostIsSum(m.cost, l.qty, m.shelf.items[i]);
        assert UnitCost(m.shelf.items[i]) == UnitCost(sh.items[i]);
        MoveKeeps(m.shelf, i, l.qty, kind, Some(reference));
      }
    }
  }

  /** Withdrawing clamps once per item, at zero, however many lines name it. */
  lemma {:induction false} WithdrawMeaning(sh: Shelf, lines: seq<DocLine>, reference: nat)
    requires StockInv(sh)
    ensures var s := Withdraw(sh, lines, reference);
      && StockInv(s)
      && SameCards(sh.items, s.items)
      && (forall i :: 0 <= i < |sh.items| ==>
            s.items[i].stock == Max(0, sh.items[i].stock - Sum(lines, Demand(sh.items, i))))
  {
    if lines != [] {
      var n := |lines| - 1;
      var l := lines[n];
      WithdrawMeaning(sh, lines[..n], reference);
      var s := Withdraw(sh, lines[..n], reference);
      assert Tracked(s.items, l) == Tracked(sh.items, l);
      if Tracked(sh.items, l) {
        MoveKeeps(s, l.item.value, -Min(l.qty, s.items[l.item.value].stock), VoidMove, Some(reference));
      }
    }
  }

  /** Cost and demand only look at the item cards, never at the quantity on hand. */
  lemma {:induction false} CardsDecide(a: seq<Item>, b: seq<Item>, lines: seq<DocLine>, i: nat)
    requires SameCards(a, b)
    ensures Sum(lines, Demand(a, i)) == Sum(lines, Demand(b, i))
    ensures Sum(lines, LineCost(a)) == Sum(lines, LineCost(b))
  {
    forall k | 0 <= k < |lines| ensures LineCost(a)(lines[k]) == LineCost(b)(lines[k])
                                        && Demand(a, i)(lines[k]) == Demand(b, i)(lines[k])
    {
      var l := lines[k];
      assert Tracked(a, l) == Tracked(b, l);
      if Tracked(a, l) {
        assert UnitCost(a[l.item.value]) == UnitCost(b[l.item.value]);
      }
    }
    SumCongruent(lines, lines, LineCost(a), LineCost(b));
    SumCongruent(lines, lines, Demand(a, i), Demand(b, i));
  }

  /** Dispatching and restocking the same lines puts every quantity back. */
  lemma DispatchThenRestock(sh: Shelf, lines: seq<DocLine>, reference: nat)
    requires StockInv(sh) && Dispatch(sh, lines, reference).Ok?
    ensures var out := Dispatch(sh, lines, reference).value;
      var back := Restock(out.shelf, lines, VoidMove, reference);
      back.shelf.items == sh.items && back.cost == out.cost
  {
    DispatchMeaning(sh, lines, reference);
    var out := Dispatch(sh, lines, reference).value;
    RestockMeaning(out.shelf, lines, VoidMove, reference);
    var back := Restock(out.shelf, lines, VoidMove, reference);
    CardsDecide(sh.items, out.shelf.items, lines, 0);
    forall i | 0 <= i < |sh.items| ensures back.shelf.items[i] == sh.items[i] {
      CardsDecide(sh.items, out.shelf.items, lines, i);
    }
  }
}

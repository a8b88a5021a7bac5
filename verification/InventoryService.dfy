/** Manual stock adjustment, updated in place. */
module InventoryService {
  import opened Common
  import opened Sums
  import opened Stock
  import opened Books
  import opened Tables
  import RunProof

  /** The quantity on hand of item i and the sum of its movements both moved by delta; every other item is as it was. */
  predicate Adjusted(before: Shelf, after: Shelf, i: nat, delta: int) {
    && i < |before.items| == |after.items|
    && after.items[i] == before.items[i].(stock := before.items[i].stock + delta)
    && after.items[i].stock >= 0
    && Sum(after.movements, OfItem(i)) == Sum(before.movements, OfItem(i)) + delta
    && (forall j :: 0 <= j < |before.items| && j != i ==>
          after.items[j] == before.items[j] && Sum(after.movements, OfItem(j)) == Sum(before.movements, OfItem(j)))
  }

  lemma AdjustMeaning(sh: Shelf, i: nat, delta: int)
    requires Stock.Adjust(sh, i, delta).Ok?
    ensures Adjusted(sh, Stock.Adjust(sh, i, delta).value, i, delta)
    ensures StockInv(sh) ==> StockInv(Stock.Adjust(sh, i, delta).value)
  {
    forall j: nat ensures Sum(sh.movements + [Movement(i, delta, Adjustment, None)], OfItem(j))
                          == Sum(sh.movements, OfItem(j)) + if j == i then delta else 0
    {
      SumAppend(sh.movements, Movement(i, delta, Adjustment, None), OfItem(j));
    }
    if StockInv(sh) {
      RunProof.AdjustKeeps(sh, i, delta);
    }
  }

  /** Appends the movement, then overwrites the quantity on hand. */
  method Adjust(db: Database, i: nat, delta: int) returns (failure: Option<Error>)
    modifies db`items, db`movements
    ensures Committed(AdjustStock(old(db.View()), i, delta), old(db.View()), failure, db.View())
    ensures failure == Some(NotFound) <==> delta != 0 && (i >= |old(db.items)| || old(db.items)[i].deleted)
    ensures failure == None <==>
              delta != 0 && i < |old(db.items)| && !old(db.items)[i].deleted && old(db.items)[i].stock + delta >= 0
    ensures failure == None ==> db.movements == old(db.movements) + [Movement(i, delta, Adjustment, None)]
    ensures failure == None ==> Adjusted(old(db.View()).shelf, db.View().shelf, i, delta)
    ensures StockInv(old(db.View()).shelf) ==> StockInv(db.View().shelf)
  {
    if Stock.Adjust(db.View().shelf, i, delta).Ok? {
      AdjustMeaning(db.View().shelf, i, delta);
    }
    if delta == 0 {
      return Some(Conflict);
    }
    if i >= |db.items| || db.items[i].deleted {
      return Some(NotFound);
    }
    var newOnHand := db.items[i].stock + delta;
    if newOnHand < 0 {
      return Some(Conflict);
    }
    db.movements := db.movements + [Movement(i, delta, Adjustment, None)];
    db.items := db.items[i := db.items[i].(stock := newOnHand)];
    failure := None;
  }

  method AddParty(db: Database, kind: PartyKind, limit: Option<int>) returns (failure: Option<Error>)
    modifies db`parties
    ensures Committed(CreateParty(old(db.View()), kind, limit), old(db.View()), failure, db.View())
    ensures failure == None && db.parties == old(db.parties) + [Party(kind, limit)]
  {
    db.parties := db.parties + [Party(kind, limit)];
    failure := None;
  }

  method AddItem(db: Database, buyPrice: Option<nat>, trackStock: bool) returns (failure: Option<Error>)
    modifies db`items
    ensures Committed(CreateItem(old(db.View()), buyPrice, trackStock), old(db.View()), failure, db.View())
    ensures failure == None && db.items == old(db.items) + [Item(buyPrice, trackStock, 0, false)]
    ensures StockInv(old(db.View()).shelf) ==> StockInv(db.View().shelf)
  {
    if StockInv(db.View().shelf) {
      RunProof.NewItemSound(db.View().shelf, Item(buyPrice, trackStock, 0, false));
    }
    db.items := db.items + [Item(buyPrice, trackStock, 0, false)];
    failure := None;
  }

  method ChangeItem(db: Database, i: nat, buyPrice: Option<nat>, trackStock: bool) returns (failure: Option<Error>)
    modifies db`items
    ensures Committed(UpdateItem(old(db.View()), i, buyPrice, trackStock), old(db.View()), failure, db.View())
    ensures failure.Some? ==> failure == Some(NotFound)
    ensures failure == None <==> i < |old(db.items)| && !old(db.items)[i].deleted
    ensures failure == None ==>
              db.items == old(db.items)[i := Item(buyPrice, trackStock, old(db.items)[i].stock, false)]
    ensures StockInv(old(db.View()).shelf) ==> StockInv(db.View().shelf)
  {
    if i >= |db.items| || db.items[i].deleted {
      return Some(NotFound);
    }
    db.items := db.items[i := db.items[i].(buyPrice := buyPrice, trackStock := trackStock)];
    failure := None;
  }

  method DeleteItem(db: Database, i: nat) returns (failure: Option<Error>)
    modifies db`items
    ensures Committed(RemoveItem(old(db.View()), i), old(db.View()), failure, db.View())
    ensures failure.Some? ==> failure == Some(NotFound)
    ensures failure == None <==> i < |old(db.items)| && !old(db.items)[i].deleted
    ensures failure == None ==> db.items == old(db.items)[i := old(db.items)[i].(deleted := true)]
    ensures StockInv(old(db.View()).shelf) ==> StockInv(db.View().shelf)
  {
    if i >= |db.items| || db.items[i].deleted {
      return Some(NotFound);
    }
    db.items := db.items[i := db.items[i].(deleted := true)];
    failure := None;
  }
}

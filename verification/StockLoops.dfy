/** The stock loops of the document services, one update of an item and one new movement per line. */
module StockLoops {
  import opened Common
  import opened Stock
  import opened Tables

  lemma {:induction false} ShortageOfPrefix(sh: Shelf, lines: seq<DocLine>, reference: nat, k: nat)
    requires k <= |lines| && Dispatch(sh, lines[..k], reference).Err?
    ensures Dispatch(sh, lines, reference).Err?
  {
    if k == |lines| {
      assert lines[..k] == lines;
    } else {
      var n := |lines| - 1;
      assert lines[..n][..k] == lines[..k];
      ShortageOfPrefix(sh, lines[..n], reference, k);
    }
  }

  lemma {:induction false} OnlyConflict(sh: Shelf, lines: seq<DocLine>, reference: nat)
    ensures Dispatch(sh, lines, reference).Err? ==> Dispatch(sh, lines, reference) == Err(Conflict)
  {
    if lines != [] {
      OnlyConflict(sh, lines[..|lines| - 1], reference);
    }
  }

  /** Takes the goods of a sale off the shelf, stopping at the first shortage. */
  method TakeOut(db: Database, lines: seq<DocLine>, reference: nat) returns (failure: Option<Error>, cost: int)
    modifies db`items, db`movements
    ensures match Dispatch(old(db.View()).shelf, lines, reference)
            case Ok(m) => failure == None && Shelf(db.items, db.movements) == m.shelf && cost == m.cost
            case Err(error) => failure == Some(error)
  {
    ghost var before := db.View().shelf;
    cost := 0;
    for k := 0 to |lines|
      invariant Dispatch(before, lines[..k], reference) == Ok(Moved(Shelf(db.items, db.movements), cost))
    {
      var l := lines[k];
      assert lines[..k + 1][..k] == lines[..k];
      if Tracked(db.items, l) {
        var i := l.item.value;
        var item := db.items[i];
        if item.stock < l.qty {
          ShortageOfPrefix(before, lines, reference, k + 1);
          OnlyConflict(before, lines, reference);
          return Some(Conflict), cost;
        }
        db.items := db.items[i := item.(stock := item.stock - l.qty)];
        db.movements := db.movements + [Movement(i, 0 - l.qty, SaleOut, Some(reference))];
        cost := AddCost(cost, l.qty, item);
      }
    }
    assert lines[..|lines|] == lines;
    failure := None;
  }

  /** Puts goods on the shelf: goods received, a voided sale or an issued credit note. */
  method PutBack(db: Database, lines: seq<DocLine>, kind: MovementKind, reference: nat) returns (cost: int)
    modifies db`items, db`movements
    ensures Moved(Shelf(db.items, db.movements), cost) == Restock(old(db.View()).shelf, lines, kind, reference)
  {
    ghost var before := db.View().shelf;
    cost := 0;
    for k := 0 to |lines|
      invariant Restock(before, lines[..k], kind, reference) == Moved(Shelf(db.items, db.movements), cost)
    {
      var l := lines[k];
      assert lines[..k + 1][..k] == lines[..k];
      if Tracked(db.items, l) {
        var i := l.item.value;
        var item := db.items[i];
        db.items := db.items[i := item.(stock := item.stock + l.qty)];
        db.movements := db.movements + [Movement(i, l.qty, kind, Some(reference))];
        cost := AddCost(cost, l.qty, item);
      }
    }
    assert lines[..|lines|] == lines;
  }

  /** Takes the goods of a voided purchase back, at most what is on hand. */
  method TakeBack(db: Database, lines: seq<DocLine>, reference: nat)
    modifies db`items, db`movements
    ensures Shelf(db.items, db.movements) == Withdraw(old(db.View()).shelf, lines, reference)
  {
    ghost var before := db.View().shelf;
    for k := 0 to |lines|
      invariant Withdraw(before, lines[..k], reference) == Shelf(db.items, db.movements)
    {
      var l := lines[k];
      assert lines[..k + 1][..k] == lines[..k];
      if Tracked(db.items, l) {
        var i := l.item.value;
        var item := db.items[i];
        var taken := Min(l.qty, item.stock);
        db.items := db.items[i := item.(stock := item.stock - taken)];
        db.movements := db.movements + [Movement(i, 0 - taken, VoidMove, Some(reference))];
      }
    }
    assert lines[..|lines|] == lines;
  }
}

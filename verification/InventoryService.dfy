/**
 The inventory service as it runs: rows updated in place inside the transaction of its caller.
 Every method is proved against the table function of the same call.
 */
module InventoryService {
  import opened Outcomes
  import opened Inventory

  /** A call either commits its result, or throws and leaves the tables as they were. */
  predicate Ends(before: Tables, r: Result<Tables>, outcome: Outcome, after: Tables) {
    match r
    case Success(s) => outcome == Done && after == s
    case Failure(e) => outcome == Thrown(e) && after == before
  }

  class Service {
    const catalog: Catalog
    var stock: map<nat, StockRow>
    var serials: seq<Serial>
    var sold: map<nat, int>
    var movements: seq<Movement>

    constructor (catalog: Catalog, tables: Tables)
      ensures this.catalog == catalog && Now() == tables
    {
      this.catalog := catalog;
      stock, serials, sold, movements := tables.stock, tables.serials, tables.sold, tables.movements;
    }

    function Now(): Tables
      reads this
    {
      Tables(stock, serials, sold, movements)
    }

    /** The database takes back everything written since `tables` was read. */
    method RollBack(tables: Tables)
      modifies this
      ensures Now() == tables
    {
      stock, serials, sold, movements := tables.stock, tables.serials, tables.sold, tables.movements;
    }

    method LogMovement(v: nat, kind: MovementKind, change: int)
      modifies this`movements
      ensures Now() == old(Now()).Logged(v, kind, change)
    {
      var after := if v in stock then stock[v].quantity else 0;
      movements := movements + [Movement(v, kind, change, after)];
    }

    method AddSold(p: nat, change: int)
      modifies this`sold
      ensures Now() == old(Now()).WithSold(p, old(Now()).SoldOf(p) + change)
    {
      sold := sold[p := (if p in sold then sold[p] else 0) + change];
    }

    method Reserve(v: nat, quantity: nat) returns (outcome: Outcome)
      requires v in catalog
      modifies this
      ensures Ends(old(Now()), Inventory.Reserve(catalog, old(Now()), v, quantity), outcome, Now())
    {
      if catalog[v].strategy != Stock {
        return Done;
      }
      if v !in stock {
        return Thrown(NotFound);
      }
      var row := stock[v];
      var guarded := catalog[v].AllowsBackorder() || row.quantity - row.reserved >= quantity;
      if !guarded || quantity == 0 {
        return Thrown(InsufficientStock);
      }
      stock := stock[v := row.(reserved := row.reserved + quantity)];
      LogMovement(v, Reservation, -(quantity as int));
      return Done;
    }

    method Release(v: nat, quantity: nat) returns (outcome: Outcome)
      requires v in catalog
      modifies this
      ensures Ends(old(Now()), ReleaseHold(catalog, old(Now()), v, quantity), outcome, Now())
    {
      if catalog[v].strategy != Stock {
        return Done;
      }
      if v !in stock {
        return Thrown(NotFound);
      }
      stock := stock[v := stock[v].(reserved := Max(0, stock[v].reserved - quantity))];
      LogMovement(v, MovementKind.Release, quantity);
      return Done;
    }

    method Commit(v: nat, quantity: nat, item: nat) returns (outcome: Outcome)
      requires v in catalog
      modifies this
      ensures Ends(old(Now()), Inventory.Commit(catalog, old(Now()), v, quantity, item), outcome, Now())
    {
      if catalog[v].strategy != Stock {
        return Done;
      }
      if catalog[v].tracking == Serialized {
        outcome := CommitSerials(v, quantity, item);
        return;
      }
      if v !in stock {
        return Thrown(NotFound);
      }
      var row := stock[v];
      stock := stock[v := StockRow(Max(0, row.quantity - quantity), Max(0, row.reserved - quantity))];
      LogMovement(v, Sale, -(quantity as int));
      AddSold(catalog[v].product, quantity);
      return Done;
    }

    method CommitSerials(v: nat, quantity: nat, item: nat) returns (outcome: Outcome)
      requires v in catalog
      modifies this
      ensures Ends(old(Now()), CommitSerialized(catalog, old(Now()), v, quantity, item), outcome, Now())
    {
      if v !in stock {
        return Thrown(NotFound);
      }
      var n := WholeUnits(quantity);
      var ids := Pick(serials, v, Available, n, 0);
      if |ids| < n {
        return Thrown(InsufficientStock);
      }
      HandOver(v, ids, Sold(item));
      stock := stock[v := stock[v].(reserved := 1000 * Max(0, RoundedUnits(stock[v].reserved) - n))];
      LogMovement(v, Sale, -1000 * (n as int));
      AddSold(catalog[v].product, quantity);
      return Done;
    }

    /** Saves the serials one by one; the observer of each save recounts the stock row. */
    method HandOver(v: nat, ids: seq<nat>, holder: Holder)
      requires forall i :: 0 <= i < |ids| ==> ids[i] < |serials|
      modifies this`serials, this`stock
      ensures serials == Assign(old(serials), ids, holder)
      ensures Now() == if ids == [] then old(Now())
                       else old(Now()).(serials := serials).WithQuantity(v, 1000 * Count(serials, v, Available))
    {
      var i := 0;
      while i < |ids|
        invariant 0 <= i <= |ids| && |serials| == |old(serials)|
        invariant Assign(serials, ids[i..], holder) == Assign(old(serials), ids, holder)
        invariant i == 0 ==> Now() == old(Now())
        invariant i > 0 ==>
          Now() == old(Now()).(serials := serials).WithQuantity(v, 1000 * Count(serials, v, Available))
      {
        serials := serials[ids[i] := serials[ids[i]].(holder := holder)];
        Saved(v);
        assert ids[i..][1..] == ids[i + 1..];
        i := i + 1;
      }
    }

    /** The serial observer: the stock row holds the number of available serials. */
    method Saved(v: nat)
      modifies this`stock
      ensures Now() == old(Now()).WithQuantity(v, 1000 * Count(serials, v, Available))
    {
      if v in stock {
        stock := stock[v := stock[v].(quantity := 1000 * Count(serials, v, Available))];
      }
    }

    method RestockFromCancellation(v: nat, quantity: nat, item: nat) returns (outcome: Outcome)
      requires v in catalog
      modifies this
      ensures Ends(old(Now()), TakeBack(catalog, old(Now()), v, quantity, item), outcome, Now())
    {
      if catalog[v].strategy != Stock {
        return Done;
      }
      if catalog[v].tracking == Serialized {
        outcome := ReturnSoldSerials(v, quantity, item);
        return;
      }
      if v !in stock {
        return Thrown(NotFound);
      }
      stock := stock[v := stock[v].(quantity := stock[v].quantity + quantity)];
      LogMovement(v, Returned, quantity);
      TakeOffSold(catalog[v].product, quantity);
      return Done;
    }

    method TakeOffSold(p: nat, quantity: nat)
      modifies this`sold
      ensures Now() == old(Now()).WithSold(p, Max(0, old(Now()).SoldOf(p) - quantity))
    {
      sold := sold[p := Max(0, (if p in sold then sold[p] else 0) - quantity)];
    }

    method ReturnSoldSerials(v: nat, quantity: nat, item: nat) returns (outcome: Outcome)
      requires v in catalog
      modifies this
      ensures Ends(old(Now()), ReturnSerials(catalog, old(Now()), v, quantity, item), outcome, Now())
    {
      var n := WholeUnits(quantity);
      var ids := Pick(serials, v, Sold(item), n, 0);
      if |ids| < n {
        return Thrown(InsufficientStock);
      }
      HandOver(v, ids, Available);
      LogMovement(v, Returned, quantity);
      TakeOffSold(catalog[v].product, quantity);
      return Done;
    }

    method Restock(v: nat, change: int) returns (outcome: Outcome)
      modifies this
      ensures Ends(old(Now()), Inventory.Restock(catalog, old(Now()), v, change), outcome, Now())
    {
      if v !in catalog {
        return Thrown(NotFound);
      }
      if catalog[v].tracking == Serialized {
        return Thrown(SerializedStock);
      }
      if v !in stock {
        return Thrown(NotFound);
      }
      stock := stock[v := stock[v].(quantity := stock[v].quantity + change)];
      LogMovement(v, Restocked, change);
      return Done;
    }

    method Adjust(v: nat, change: int) returns (outcome: Outcome)
      modifies this
      ensures Ends(old(Now()), Inventory.Adjust(catalog, old(Now()), v, change), outcome, Now())
    {
      if v !in catalog {
        return Thrown(NotFound);
      }
      if catalog[v].tracking == Serialized {
        return Thrown(SerializedStock);
      }
      if v !in stock {
        return Thrown(NotFound);
      }
      stock := stock[v := stock[v].(quantity := Max(0, stock[v].quantity + change))];
      LogMovement(v, Adjustment, change);
      return Done;
    }

    method ReceiveSerial(v: nat)
      modifies this
      ensures Now() == Inventory.ReceiveSerial(old(Now()), v)
    {
      serials := serials + [Serial(v, Available)];
      Saved(v);
    }
  }
}

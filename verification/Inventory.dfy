/**
 The inventory tables and what each inventory service call does to them.
 Quantities are integers in thousandths: the columns hold three decimals.
 */
module Inventory {
  import opened Outcomes

  datatype Strategy = Stock | Preorder | Dropship
  datatype Tracking = Tracked | Serialized | NotTracked
  datatype Backorder = Unset | Deny | Allow | Notify

  datatype Variant = Variant(
    product: nat, strategy: Strategy, tracking: Tracking, backorder: Backorder, discontinued: bool)
  {
    predicate AllowsBackorder() {
      backorder == Allow || backorder == Notify
    }
  }

  type Catalog = map<nat, Variant>

  datatype StockRow = StockRow(quantity: int, reserved: nat)

  /** The status column of a serial together with its order_item_id. */
  datatype Holder = Available | Sold(item: nat)

  datatype Serial = Serial(variant: nat, holder: Holder)

  datatype MovementKind = Restocked | Sale | Returned | Adjustment | Reservation | Release

  datatype Movement = Movement(variant: nat, kind: MovementKind, change: int, after: int)

  /** Serials are listed in ascending id order; the ledger in the order it was appended. */
  datatype Tables = Tables(
    stock: map<nat, StockRow>, serials: seq<Serial>, sold: map<nat, int>, movements: seq<Movement>)
  {
    function QuantityOf(v: nat): int {
      if v in stock then stock[v].quantity else 0
    }

    function SoldOf(p: nat): int {
      if p in sold then sold[p] else 0
    }

    /** StockItem::availableQuantityDecimal, 0 when the row is missing. */
    function AvailableOf(v: nat): int {
      if v in stock then Max(0, stock[v].quantity - stock[v].reserved) else 0
    }

    /** A ledger row carries the quantity the stock row holds when it is written. */
    function Logged(v: nat, kind: MovementKind, change: int): Tables {
      this.(movements := movements + [Movement(v, kind, change, QuantityOf(v))])
    }

    function WithQuantity(v: nat, quantity: int): Tables {
      if v in stock then this.(stock := stock[v := stock[v].(quantity := quantity)]) else this
    }

    function WithReserved(v: nat, reserved: nat): Tables
      requires v in stock
    {
      this.(stock := stock[v := stock[v].(reserved := reserved)])
    }

    function WithSold(p: nat, quantity: int): Tables {
      this.(sold := sold[p := quantity])
    }
  }

  function Max(a: int, b: int): int {
    if a < b then b else a
  }

  /** The (int) cast of a decimal quantity. */
  function WholeUnits(quantity: nat): nat {
    quantity / 1000
  }

  /** MySQL's CAST(decimal AS SIGNED) rounds half up where PHP's cast truncates. */
  function RoundedUnits(quantity: nat): nat {
    (quantity + 500) / 1000
  }

  // Serial numbers

  function Count(serials: seq<Serial>, v: nat, h: Holder): nat {
    if serials == [] then 0
    else (if serials[0] == Serial(v, h) then 1 else 0) + Count(serials[1..], v, h)
  }

  /** The ids of the first `limit` matching serials with id at least `from`. */
  function Pick(serials: seq<Serial>, v: nat, h: Holder, limit: nat, from: nat): (ids: seq<nat>)
    requires from <= |serials|
    ensures |ids| <= limit && forall i :: 0 <= i < |ids| ==> ids[i] < |serials|
    decreases |serials| - from
  {
    if limit == 0 || from == |serials| then []
    else if serials[from] == Serial(v, h) then [from] + Pick(serials, v, h, limit - 1, from + 1)
    else Pick(serials, v, h, limit, from + 1)
  }

  /** Each listed serial saved with a new holder. */
  function Assign(serials: seq<Serial>, ids: seq<nat>, h: Holder): (r: seq<Serial>)
    requires forall i :: 0 <= i < |ids| ==> ids[i] < |serials|
    ensures |r| == |serials|
    decreases ids
  {
    if ids == [] then serials
    else Assign(serials[ids[0] := serials[ids[0]].(holder := h)], ids[1..], h)
  }

  /** Moves the first `n` serials held by `from` over to `to`; the observer then recounts the stock row. */
  function Reassign(s: Tables, v: nat, from: Holder, to: Holder, n: nat): Result<Tables> {
    var ids := Pick(s.serials, v, from, n, 0);
    if |ids| < n then Failure(InsufficientStock)
    else
      var serials := Assign(s.serials, ids, to);
      var moved := s.(serials := serials);
      Success(if n == 0 then moved else moved.WithQuantity(v, 1000 * Count(serials, v, Available)))
  }

  // Service calls

  predicate Purchasable(c: Catalog, s: Tables, v: nat, quantity: nat)
    requires v in c
  {
    if c[v].discontinued then false
    else if c[v].strategy != Stock then true
    else if c[v].tracking == Serialized then Count(s.serials, v, Available) >= WholeUnits(quantity)
    else c[v].AllowsBackorder() || s.AvailableOf(v) >= quantity
  }

  /** The guarded UPDATE: no row is affected when the guard fails or the value would not change. */
  function Reserve(c: Catalog, s: Tables, v: nat, quantity: nat): Result<Tables>
    requires v in c
  {
    if c[v].strategy != Stock then Success(s)
    else if v !in s.stock then Failure(NotFound)
    else
      var row := s.stock[v];
      if quantity == 0 || (!c[v].AllowsBackorder() && row.quantity - row.reserved < quantity)
      then Failure(InsufficientStock)
      else Success(s.WithReserved(v, row.reserved + quantity).Logged(v, Reservation, -(quantity as int)))
  }

  function ReleaseHold(c: Catalog, s: Tables, v: nat, quantity: nat): Result<Tables>
    requires v in c
  {
    if c[v].strategy != Stock then Success(s)
    else if v !in s.stock then Failure(NotFound)
    else Success(s.WithReserved(v, Max(0, s.stock[v].reserved - quantity)).Logged(v, Release, quantity))
  }

  function CommitCounted(c: Catalog, s: Tables, v: nat, quantity: nat): Result<Tables>
    requires v in c
  {
    if v !in s.stock then Failure(NotFound)
    else
      var row := s.stock[v];
      var p := c[v].product;
      var sale := s.WithQuantity(v, Max(0, row.quantity - quantity))
                  .WithReserved(v, Max(0, row.reserved - quantity))
                  .Logged(v, Sale, -(quantity as int));
      Success(sale.WithSold(p, s.SoldOf(p) + quantity))
  }

  function CommitSerialized(c: Catalog, s: Tables, v: nat, quantity: nat, item: nat): Result<Tables>
    requires v in c
  {
    if v !in s.stock then Failure(NotFound)
    else
      var n := WholeUnits(quantity);
      var taken :- Reassign(s, v, Available, Sold(item), n);
      var p := c[v].product;
      var sale := taken.WithReserved(v, 1000 * Max(0, RoundedUnits(s.stock[v].reserved) - n))
                  .Logged(v, Sale, -1000 * n);
      Success(sale.WithSold(p, s.SoldOf(p) + quantity))
  }

  function Commit(c: Catalog, s: Tables, v: nat, quantity: nat, item: nat): Result<Tables>
    requires v in c
  {
    if c[v].strategy != Stock then Success(s)
    else if c[v].tracking == Serialized then CommitSerialized(c, s, v, quantity, item)
    else CommitCounted(c, s, v, quantity)
  }

  function ReturnSerials(c: Catalog, s: Tables, v: nat, quantity: nat, item: nat): Result<Tables>
    requires v in c
  {
    var back :- Reassign(s, v, Sold(item), Available, WholeUnits(quantity));
    var p := c[v].product;
    Success(back.Logged(v, Returned, quantity).WithSold(p, Max(0, s.SoldOf(p) - quantity)))
  }

  function TakeBack(c: Catalog, s: Tables, v: nat, quantity: nat, item: nat): Result<Tables>
    requires v in c
  {
    if c[v].strategy != Stock then Success(s)
    else if c[v].tracking == Serialized then ReturnSerials(c, s, v, quantity, item)
    else if v !in s.stock then Failure(NotFound)
    else
      var p := c[v].product;
      Success(s.WithQuantity(v, s.stock[v].quantity + quantity)
              .Logged(v, Returned, quantity)
              .WithSold(p, Max(0, s.SoldOf(p) - quantity)))
  }

  function Restock(c: Catalog, s: Tables, v: nat, quantity: int): Result<Tables> {
    if v !in c then Failure(NotFound)
    else if c[v].tracking == Serialized then Failure(SerializedStock)
    else if v !in s.stock then Failure(NotFound)
    else Success(s.WithQuantity(v, s.stock[v].quantity + quantity).Logged(v, Restocked, quantity))
  }

  function Adjust(c: Catalog, s: Tables, v: nat, change: int): Result<Tables> {
    if v !in c then Failure(NotFound)
    else if c[v].tracking == Serialized then Failure(SerializedStock)
    else if v !in s.stock then Failure(NotFound)
    else Success(s.WithQuantity(v, Max(0, s.stock[v].quantity + change)).Logged(v, Adjustment, change))
  }

  /** A serial is registered as available; its observer recounts the stock row. */
  function ReceiveSerial(s: Tables, v: nat): Tables {
    var serials := s.serials + [Serial(v, Available)];
    s.(serials := serials).WithQuantity(v, 1000 * Count(serials, v, Available))
  }
}

/** The catalogue, the inventory ledger and orders (store/models.py).

    Money is held in integer units: prices in cents (DecimalField with two
    places), a trader's commission rate in hundredths of a percent, and a
    commission in millionths of the currency unit, so that
    quantity * price * rate / 100 is exact. */
module StoreModels {
  import opened Results
  import opened Text
  import AccountsModels

  type UserId = AccountsModels.UserId
  type TraderProfile = AccountsModels.TraderProfile
  type PartId = nat
  type OrderId = nat
  type CategoryId = nat

  datatype LogType = New | Restock | Adjustment

  datatype OrderStatus = Pending | Processing | Shipped | Delivered | Cancelled

  /** The three values of `Part.stock_status`. */
  datatype StockLevel = OutOfStock | LowStock | InStock

  datatype StoreError =
    | NegativeStock          // the database refuses a negative PositiveIntegerField
    | DuplicateSku           // the unique constraint on Part.sku
    | MissingSupplier        // item.supplier is None, so `.trader_profile` fails
    | MissingTraderProfile   // the supplier has no trader profile

  datatype Category = Category(name: string, parent: Option<CategoryId>, description: string, slug: Option<string>)

  /** `Category.save`: the slug is recomputed from the name on every save.
      `slugify` is Django's, taken as a parameter. */
  function SaveCategory(c: Category, slugify: string -> string): (r: Category)
    ensures r.slug == Some(slugify(c.name))
    ensures r.name == c.name && r.parent == c.parent && r.description == c.description
  {
    c.(slug := Some(slugify(c.name)))
  }

  lemma SaveCategoryIdempotent(c: Category, slugify: string -> string)
    ensures SaveCategory(SaveCategory(c, slugify), slugify) == SaveCategory(c, slugify)
  {
  }

  datatype Part = Part(
    trader: UserId,
    category: CategoryId,
    categoryParent: CategoryId,
    name: string,
    sku: string,
    price: int,
    quantity: nat,
    lowStockThreshold: nat,
    reorderQuantity: nat,
    isActive: bool,
    approved: bool,
    isFeatured: bool,
    warrantyMonths: nat)

  /** A part with every field the caller leaves out at its declared default. */
  function NewPart(trader: UserId, category: CategoryId, categoryParent: CategoryId,
                   name: string, sku: string, price: int): (p: Part)
    ensures p.trader == trader && p.category == category && p.categoryParent == categoryParent
    ensures p.name == name && p.sku == sku && p.price == price
    ensures p.quantity == 0 && p.lowStockThreshold == 5 && p.reorderQuantity == 10
    ensures p.isActive && !p.approved && !p.isFeatured && p.warrantyMonths == 12
  {
    Part(trader, category, categoryParent, name, sku, price, 0, 5, 10, true, false, false, 12)
  }

  /** `Part.stock_status`. */
  function StockStatus(p: Part): (s: StockLevel)
    ensures s == OutOfStock <==> p.quantity == 0
    ensures s == LowStock <==> 0 < p.quantity <= p.lowStockThreshold
    ensures s == InStock <==> p.quantity > p.lowStockThreshold && p.quantity != 0
  {
    if p.quantity == 0 then OutOfStock
    else if p.quantity <= p.lowStockThreshold then LowStock
    else InStock
  }

  /** A part created with the default quantity starts out of stock. */
  lemma NewPartIsOutOfStock(trader: UserId, category: CategoryId, categoryParent: CategoryId,
                            name: string, sku: string, price: int)
    ensures StockStatus(NewPart(trader, category, categoryParent, name, sku, price)) == OutOfStock
  {
  }

  /** A part is at or below its threshold exactly when it is not in stock. */
  lemma AtOrBelowThresholdIffNotInStock(p: Part)
    ensures p.quantity <= p.lowStockThreshold <==> StockStatus(p) != InStock
  {
  }

  /** One audit entry; `quantity` is the signed change it records. */
  datatype InventoryLog = InventoryLog(
    part: PartId,
    quantity: int,
    logType: LogType,
    notes: string,
    createdBy: UserId)

  datatype Order = Order(
    user: UserId,
    status: OrderStatus,
    total: int,
    trackingNumber: string,
    notes: string)

  /** An order with every field the caller leaves out at its declared default. */
  function NewOrder(user: UserId): (o: Order)
    ensures o.user == user && o.status == Pending && o.total == 0
  {
    Order(user, Pending, 0, [], [])
  }

  /** An order line; `pk` is None until the row is first inserted. */
  datatype OrderItem = OrderItem(
    pk: Option<nat>,
    order: OrderId,
    part: PartId,
    quantity: nat,
    price: int,
    supplier: Option<UserId>)

  /** A hold on stock for a session. Nothing in the store reads or changes
      stock because of it. Times are instants on one integer clock. */
  datatype StockReservation = StockReservation(
    part: PartId,
    quantity: nat,
    sessionKey: string,
    createdAt: int,
    expiresAt: int)

  /** The note of a restock by q: "Restocked ", the decimal form of q,
      then " units"; a minus sign appears exactly for a negative q. */
  function RestockNote(q: int): (s: string)
    ensures |s| > 16 && s[..10] == "Restocked " && s[|s| - 6..] == " units"
    ensures s[10] == '-' <==> q < 0
  {
    "Restocked " + IntToString(q) + " units"
  }

  /** A restock note of a non-negative quantity reads back as that quantity. */
  lemma RestockNoteNamesQuantity(q: nat)
    ensures var s := RestockNote(q);
            && (forall i :: 10 <= i < |s| - 6 ==> IsDigit(s[i]))
            && ParseNat(s[10..|s| - 6]) == q
  {
    var s := RestockNote(q);
    assert s[10..|s| - 6] == NatToString(q);
    ParseNatToString(q);
  }

  /** The note of a deduction for order o: "Order ", then digits that parse
      back to o, then " deduction". */
  function DeductionNote(o: OrderId): (s: string)
    ensures |s| > 16 && s[..6] == "Order " && s[|s| - 10..] == " deduction"
    ensures forall i :: 6 <= i < |s| - 10 ==> IsDigit(s[i])
    ensures ParseNat(s[6..|s| - 10]) == o
  {
    var s := "Order " + NatToString(o) + " deduction";
    assert s[6..|s| - 10] == NatToString(o);
    ParseNatToString(o);
    s
  }

  /** The entry `Part.restock` appends. */
  function RestockLog(id: PartId, q: int, user: UserId): (l: InventoryLog)
    ensures l.part == id && l.quantity == q && l.logType == Restock && l.createdBy == user
  {
    InventoryLog(id, q, Restock, RestockNote(q), user)
  }

  /** The entry `OrderItem.save` appends when the item is created. */
  function DeductionLog(item: OrderItem, orderUser: UserId): (l: InventoryLog)
    ensures l.part == item.part && l.quantity == -(item.quantity as int)
    ensures l.logType == Adjustment && l.createdBy == orderUser
  {
    InventoryLog(item.part, -(item.quantity as int), Adjustment, DeductionNote(item.order), orderUser)
  }

  /** An item saved without a supplier takes the trader who lists its part;
      an item with a supplier keeps it. */
  function WithDefaultSupplier(item: OrderItem, trader: UserId): (r: OrderItem)
    ensures r.supplier.Some?
    ensures item.supplier.Some? ==> r == item
    ensures item.supplier.None? ==> r == item.(supplier := Some(trader))
  {
    if item.supplier.None? then item.(supplier := Some(trader)) else item
  }

  /** The sum of the deltas the log records for one part. */
  function Delta(logs: seq<InventoryLog>, id: PartId): int
  {
    if logs == [] then 0
    else Delta(logs[..|logs| - 1], id) + (if logs[|logs| - 1].part == id then logs[|logs| - 1].quantity else 0)
  }

  lemma DeltaAppend(logs: seq<InventoryLog>, l: InventoryLog)
    ensures forall id :: Delta(logs + [l], id) == Delta(logs, id) + (if l.part == id then l.quantity else 0)
  {
    assert (logs + [l])[..|logs|] == logs;
  }

  lemma {:induction false} DeltaUnmentioned(logs: seq<InventoryLog>, id: PartId)
    requires forall i :: 0 <= i < |logs| ==> logs[i].part != id
    ensures Delta(logs, id) == 0
  {
    if logs != [] {
      DeltaUnmentioned(logs[..|logs| - 1], id);
    }
  }

  /** The ledger invariant: every part's quantity is its quantity when it
      was inserted plus the deltas its log entries record. */
  ghost predicate Balanced(parts: map<PartId, Part>, initial: map<PartId, int>, logs: seq<InventoryLog>) {
    forall id {:trigger Delta(logs, id)} :: id in parts && id in initial ==> parts[id].quantity == initial[id] + Delta(logs, id)
  }

  /** After a change to one part that is logged with the same delta, the ledger still balances. */
  lemma BalancedAfterLoggedChange(parts: map<PartId, Part>, initial: map<PartId, int>,
                                  logs: seq<InventoryLog>, id: PartId, q: nat, l: InventoryLog)
    requires Balanced(parts, initial, logs) && id in parts
    requires l.part == id && q == parts[id].quantity + l.quantity
    ensures Balanced(parts[id := parts[id].(quantity := q)], initial, logs + [l])
  {
    DeltaAppend(logs, l);
  }

  /** `Order.save`'s commission over the persisted items of order `o`, in
      table order. An item without a supplier, or whose supplier has no
      trader profile, raises, and the first such item decides the error. */
  function Commission(items: seq<OrderItem>, o: OrderId, traders: map<UserId, TraderProfile>): (r: Result<int, StoreError>)
    ensures r.Ok? <==> forall k :: 0 <= k < |items| && items[k].order == o ==>
                         items[k].supplier.Some? && items[k].supplier.value in traders
    ensures r.Err? ==> r.error in {MissingSupplier, MissingTraderProfile}
  {
    if items == [] then Ok(0)
    else
      var prior := Commission(items[..|items| - 1], o, traders);
      var item := items[|items| - 1];
      if prior.Err? || item.order != o then prior
      else if item.supplier.None? then Err(MissingSupplier)
      else if item.supplier.value !in traders then Err(MissingTraderProfile)
      else Ok(prior.value + item.quantity * item.price * traders[item.supplier.value].commissionRate)
  }

  /** Once a prefix of the items raises, the whole computation raises the same error. */
  lemma {:induction false} CommissionErrorPersists(items: seq<OrderItem>, i: nat, o: OrderId, traders: map<UserId, TraderProfile>)
    requires i <= |items| && Commission(items[..i], o, traders).Err?
    ensures Commission(items, o, traders) == Commission(items[..i], o, traders)
    decreases |items| - i
  {
    if i < |items| {
      assert items[..i + 1][..i] == items[..i];
      CommissionErrorPersists(items, i + 1, o, traders);
    } else {
      assert items[..i] == items;
    }
  }

  /** An order with no items has commission 0. */
  lemma {:induction false} CommissionWithoutItems(items: seq<OrderItem>, o: OrderId, traders: map<UserId, TraderProfile>)
    requires forall i :: 0 <= i < |items| ==> items[i].order != o
    ensures Commission(items, o, traders) == Ok(0)
  {
    if items != [] {
      CommissionWithoutItems(items[..|items| - 1], o, traders);
    }
  }

  /** Items of other orders do not affect an order's commission. */
  lemma {:induction false} CommissionOfOwnItems(items: seq<OrderItem>, extra: seq<OrderItem>, o: OrderId,
                                                traders: map<UserId, TraderProfile>)
    requires forall i :: 0 <= i < |extra| ==> extra[i].order != o
    ensures Commission(items + extra, o, traders) == Commission(items, o, traders)
  {
    if extra == [] {
      assert items + extra == items;
    } else {
      assert (items + extra)[..|items + extra| - 1] == items + extra[..|extra| - 1];
      CommissionOfOwnItems(items, extra[..|extra| - 1], o, traders);
    }
  }

  /** Each item row sits at its own primary key and refers to an existing order and part. */
  ghost predicate ItemsKeyed(items: seq<OrderItem>, orders: set<OrderId>, parts: set<PartId>) {
    forall i :: 0 <= i < |items| ==> items[i].pk == Some(i) && items[i].order in orders && items[i].part in parts
  }

  lemma ItemsKeyedAppend(items: seq<OrderItem>, orders: set<OrderId>, parts: set<PartId>, x: OrderItem)
    requires ItemsKeyed(items, orders, parts)
    requires x.pk == Some(|items|) && x.order in orders && x.part in parts
    ensures ItemsKeyed(items + [x], orders, parts)
  {
  }

  lemma ItemsKeyedUpdate(items: seq<OrderItem>, orders: set<OrderId>, parts: set<PartId>, k: nat, x: OrderItem)
    requires ItemsKeyed(items, orders, parts) && k < |items|
    requires x.pk == Some(k) && x.order in orders && x.part in parts
    ensures ItemsKeyed(items[k := x], orders, parts)
  {
  }

  /** The database tables the core touches. */
  class Store {
    var parts: map<PartId, Part>
    var logs: seq<InventoryLog>
    var orders: map<OrderId, Order>
    var items: seq<OrderItem>
    var nextPartId: nat
    var nextOrderId: nat
    /** The quantity each part had when it was inserted. */
    ghost var initial: map<PartId, int>

    ghost predicate Valid()
      reads this
    {
      && parts.Keys == initial.Keys
      && (forall id :: id in parts ==> id < nextPartId)
      && (forall id :: id in orders ==> id < nextOrderId)
      && (forall i :: 0 <= i < |logs| ==> logs[i].part in parts)
      && ItemsKeyed(items, orders.Keys, parts.Keys)
      && Balanced(parts, initial, logs)
    }

    constructor ()
      ensures Valid()
      ensures parts == map[] && logs == [] && orders == map[] && items == []
    {
      parts, logs, orders, items := map[], [], map[], [];
      nextPartId, nextOrderId := 0, 0;
      initial := map[];
    }

    /** Inserts a part row under a fresh key; a taken sku is refused. */
    method AddPart(p: Part) returns (r: Result<PartId, StoreError>)
      requires Valid()
      modifies this
      ensures Valid()
      ensures logs == old(logs) && orders == old(orders) && items == old(items)
      ensures r.Err? <==> exists k :: k in old(parts) && old(parts)[k].sku == p.sku
      ensures r.Err? ==> r.error == DuplicateSku && parts == old(parts)
      ensures r.Ok? ==> r.value !in old(parts) && parts == old(parts)[r.value := p]
      ensures r.Ok? ==> Delta(logs, r.value) == 0
      ensures nextOrderId == old(nextOrderId)
      ensures r.Err? ==> initial == old(initial) && nextPartId == old(nextPartId)
      ensures r.Ok? ==> r.value == old(nextPartId) && nextPartId == old(nextPartId) + 1
                        && initial == old(initial)[r.value := p.quantity]
    {
      if exists k | k in parts :: parts[k].sku == p.sku {
        return Err(DuplicateSku);
      }
      var id := nextPartId;
      DeltaUnmentioned(logs, id);
      parts := parts[id := p];
      initial := initial[id := p.quantity];
      nextPartId := nextPartId + 1;
      r := Ok(id);
    }

    /** The step both stock changes share: `part.save()` with the new
        quantity, then `InventoryLog.objects.create(...)` with the same delta. */
    method WriteLogged(id: PartId, q: nat, log: InventoryLog)
      requires Valid() && id in parts && log.part == id
      requires q == parts[id].quantity + log.quantity
      modifies this`parts, this`logs
      ensures Valid()
      ensures parts == old(parts)[id := old(parts[id]).(quantity := q)]
      ensures parts.Keys == old(parts.Keys)
      ensures logs == old(logs) + [log]
    {
      BalancedAfterLoggedChange(parts, initial, logs, id, q, log);
      parts := parts[id := parts[id].(quantity := q)];
      logs := logs + [log];
    }

    /** `Part.restock(q, user)`: adds q to the part and appends one RESTOCK
        entry of +q. A result below zero is refused by the database before
        anything is written. */
    method Restock(id: PartId, q: int, user: UserId) returns (r: Outcome<StoreError>)
      requires Valid() && id in parts
      modifies this
      ensures Valid()
      ensures orders == old(orders) && items == old(items) && initial == old(initial)
      ensures nextPartId == old(nextPartId) && nextOrderId == old(nextOrderId)
      ensures old(parts[id].quantity) + q >= 0 ==>
                && r == Pass
                && parts == old(parts)[id := old(parts[id]).(quantity := old(parts[id].quantity) + q)]
                && logs == old(logs) + [RestockLog(id, q, user)]
      ensures old(parts[id].quantity) + q < 0 ==>
                r == Fail(NegativeStock) && parts == old(parts) && logs == old(logs)
    {
      var q' := parts[id].quantity + q;
      if q' < 0 {
        return Fail(NegativeStock);
      }
      WriteLogged(id, q', RestockLog(id, q, user));
      r := Pass;
    }

    /** `OrderItem.save`. The supplier defaults to the part's trader. Only
        when the item has no primary key yet is the part's quantity reduced by
        the item's quantity and one ADJUSTMENT entry of the negated quantity,
        by the order's user, appended; an item saved again changes no stock.
        A deduction below zero is refused by the database. */
    method SaveOrderItem(item: OrderItem) returns (r: Result<OrderItem, StoreError>)
      requires Valid() && item.part in parts && item.order in orders
      requires item.pk.Some? ==> item.pk.value < |items|
      modifies this
      ensures Valid()
      ensures orders == old(orders) && initial == old(initial)
      ensures nextPartId == old(nextPartId) && nextOrderId == old(nextOrderId)
      ensures item.pk.Some? ==>
                && r == Ok(WithDefaultSupplier(item, old(parts[item.part].trader)))
                && parts == old(parts) && logs == old(logs)
                && items == old(items)[item.pk.value := r.value]
      ensures item.pk.None? && item.quantity <= old(parts[item.part].quantity) ==>
                && r == Ok(WithDefaultSupplier(item, old(parts[item.part].trader)).(pk := Some(old(|items|))))
                && parts == old(parts)[item.part := old(parts[item.part]).(quantity := old(parts[item.part].quantity) - item.quantity)]
                && logs == old(logs) + [DeductionLog(item, old(orders[item.order].user))]
                && items == old(items) + [r.value]
      ensures item.pk.None? && item.quantity > old(parts[item.part].quantity) ==>
                r == Err(NegativeStock) && parts == old(parts) && logs == old(logs) && items == old(items)
    {
      var saved := WithDefaultSupplier(item, parts[item.part].trader);
      if saved.pk.Some? {
        ItemsKeyedUpdate(items, orders.Keys, parts.Keys, saved.pk.value, saved);
        items := items[saved.pk.value := saved];
        return Ok(saved);
      }
      var pid := item.part;
      var q' := parts[pid].quantity - item.quantity;
      if q' < 0 {
        return Err(NegativeStock);
      }
      WriteLogged(pid, q', DeductionLog(item, orders[item.order].user));
      saved := saved.(pk := Some(|items|));
      ItemsKeyedAppend(items, orders.Keys, parts.Keys, saved);
      items := items + [saved];
      r := Ok(saved);
    }

    /** The loop of `Order.save`: the commission of order o over its items. */
    method OrderCommission(o: OrderId, traders: map<UserId, TraderProfile>) returns (r: Result<int, StoreError>)
      ensures r == Commission(items, o, traders)
    {
      var total := 0;
      var i := 0;
      while i < |items|
        invariant 0 <= i <= |items|
        invariant Commission(items[..i], o, traders) == Ok(total)
      {
        var item := items[i];
        assert items[..i + 1][..i] == items[..i];
        if item.order == o {
          if item.supplier.None? {
            CommissionErrorPersists(items, i + 1, o, traders);
            return Err(MissingSupplier);
          }
          if item.supplier.value !in traders {
            CommissionErrorPersists(items, i + 1, o, traders);
            return Err(MissingTraderProfile);
          }
          total := total + item.quantity * item.price * traders[item.supplier.value].commissionRate;
        }
        i := i + 1;
      }
      assert items[..i] == items;
      r := Ok(total);
    }

    /** `Order.save`: computes the commission (kept on the instance, not in
        the table) and writes the row as given: insert under a fresh key when
        pk is None, otherwise under pk. `total` is written as the caller has
        it and is not recomputed. A new order has no items, so its
        commission is 0. */
    method SaveOrder(pk: Option<OrderId>, o: Order, traders: map<UserId, TraderProfile>)
      returns (r: Result<(OrderId, int), StoreError>)
      requires Valid()
      modifies this
      ensures Valid()
      ensures parts == old(parts) && logs == old(logs) && items == old(items) && initial == old(initial)
      ensures nextPartId == old(nextPartId)
      ensures pk.None? ==> nextOrderId == old(nextOrderId) + 1
      ensures pk.Some? ==> nextOrderId == if r.Ok? && pk.value >= old(nextOrderId) then pk.value + 1 else old(nextOrderId)
      ensures pk.None? ==>
                r == Ok((old(nextOrderId), 0)) && old(nextOrderId) !in old(orders)
                && orders == old(orders)[old(nextOrderId) := o]
      ensures pk.Some? && Commission(items, pk.value, traders).Err? ==>
                r == Err(Commission(items, pk.value, traders).error) && orders == old(orders)
      ensures pk.Some? && Commission(items, pk.value, traders).Ok? ==>
                r == Ok((pk.value, Commission(items, pk.value, traders).value))
                && orders == old(orders)[pk.value := o]
    {
      var id := if pk.Some? then pk.value else nextOrderId;
      if pk.None? {
        CommissionWithoutItems(items, id, traders);
      }
      var c := OrderCommission(id, traders);
      if c.Err? {
        return Err(c.error);
      }
      orders := orders[id := o];
      if id >= nextOrderId {
        nextOrderId := id + 1;
      }
      r := Ok((id, c.value));
    }
  }
}

/** The back-office rules of store/admin.py: display helpers, the part
    list a trader may see, and the bulk actions over selected parts and orders. */
module StoreAdmin {
  import opened Results
  import opened StoreModels
  import AccountsModels

  /** A selection of rows lists each row once. */
  predicate Distinct<T(==)>(s: seq<T>) {
    forall i, j :: 0 <= i < j < |s| ==> s[i] != s[j]
  }

  /** `line_total` and `total` of an order item, in cents. */
  function LineTotal(item: OrderItem): (t: int)
    ensures item.quantity == 0 ==> t == 0
    ensures item.price >= 0 ==> t >= 0
  {
    item.price * item.quantity
  }

  /** The sum of the line totals of order o's items. */
  function LinesTotal(items: seq<OrderItem>, o: OrderId): int {
    if items == [] then 0
    else LinesTotal(items[..|items| - 1], o)
         + (if items[|items| - 1].order == o then LineTotal(items[|items| - 1]) else 0)
  }

  /** Every item of order o has a supplier whose trader profile has rate `rate`. */
  ghost predicate UniformRate(items: seq<OrderItem>, o: OrderId, traders: map<UserId, TraderProfile>, rate: int) {
    forall i :: 0 <= i < |items| && items[i].order == o ==>
      items[i].supplier.Some? && items[i].supplier.value in traders
      && traders[items[i].supplier.value].commissionRate == rate
  }

  /** When all suppliers of an order charge the same rate, the commission is
      that rate applied to the sum of the line totals shown in the admin. */
  lemma {:induction false} CommissionAtUniformRate(items: seq<OrderItem>, o: OrderId,
                                                   traders: map<UserId, TraderProfile>, rate: int)
    requires UniformRate(items, o, traders, rate)
    ensures Commission(items, o, traders) == Ok(rate * LinesTotal(items, o))
  {
    if items != [] {
      var prefix := items[..|items| - 1];
      var last := items[|items| - 1];
      assert UniformRate(prefix, o, traders, rate) by {
        forall i | 0 <= i < |prefix| && prefix[i].order == o
          ensures prefix[i].supplier.Some? && prefix[i].supplier.value in traders
                  && traders[prefix[i].supplier.value].commissionRate == rate
        {
          assert prefix[i] == items[i];
        }
      }
      CommissionAtUniformRate(prefix, o, traders, rate);
      if last.order == o {
        assert last.quantity * last.price * rate == rate * (last.quantity * last.price);
        assert rate * LinesTotal(items, o) == rate * LinesTotal(prefix, o) + rate * LineTotal(last);
      }
    }
  }

  /** `StockReservationAdmin.is_expired`: strictly before now. */
  function IsExpired(r: StockReservation, now: int): (expired: bool)
  {
    r.expiresAt < now
  }

  /** A reservation is not yet expired at its own expiry instant, and once
      expired it stays expired. */
  lemma ExpiryIsStrictAndStable(r: StockReservation, now: int, later: int)
    requires now <= later
    ensures !IsExpired(r, r.expiresAt)
    ensures IsExpired(r, now) ==> IsExpired(r, later)
  {
  }

  /** The colour and text of `stock_status_colored` (the HTML around them is left out). */
  datatype Badge = Badge(colour: string, text: string)

  function StockBadge(p: Part): (b: Badge)
    ensures StockStatus(p) == OutOfStock ==> b == Badge("red", "Out of Stock")
    ensures StockStatus(p) == LowStock ==> b == Badge("orange", "Low Stock")
    ensures StockStatus(p) == InStock ==> b == Badge("green", "In Stock")
  {
    match StockStatus(p)
    case OutOfStock => Badge("red", "Out of Stock")
    case LowStock => Badge("orange", "Low Stock")
    case InStock => Badge("green", "In Stock")
  }

  /** Two parts show the same badge text exactly when their stock status is the same. */
  lemma StockBadgeDistinguishesStatus(p: Part, q: Part)
    ensures StockBadge(p).text == StockBadge(q).text <==> StockStatus(p) == StockStatus(q)
  {
  }

  /** `PartAdmin.get_queryset`: a trader who is not a superuser sees only
      their own parts; everyone else sees every part. */
  function VisibleParts(parts: map<PartId, Part>, user: AccountsModels.User): (r: map<PartId, Part>)
    ensures forall id :: id in r ==> id in parts && r[id] == parts[id]
    ensures user.isTrader && !user.isSuperuser ==>
              forall id :: id in parts ==> (id in r <==> parts[id].trader == user.id)
    ensures !user.isTrader || user.isSuperuser ==> r == parts
  {
    if user.isTrader && !user.isSuperuser
    then map id | id in parts && parts[id].trader == user.id :: parts[id]
    else parts
  }

  /** The rows after the first n selected parts of `restock_action` are done:
      each of them in turn grows by its reorder quantity. */
  function Restocked(parts: map<PartId, Part>, ids: seq<PartId>, n: nat): (r: map<PartId, Part>)
    requires n <= |ids| && forall k :: 0 <= k < |ids| ==> ids[k] in parts
    ensures r.Keys == parts.Keys
  {
    if n == 0 then parts
    else
      var prior := Restocked(parts, ids, n - 1);
      var id := ids[n - 1];
      prior[id := prior[id].(quantity := prior[id].quantity + parts[id].reorderQuantity)]
  }

  /** Restocking changes nothing of a part but its quantity. */
  lemma {:induction false} RestockedOnlyQuantity(parts: map<PartId, Part>, ids: seq<PartId>, n: nat, id: PartId)
    requires n <= |ids| && forall k :: 0 <= k < |ids| ==> ids[k] in parts
    requires id in parts
    ensures Restocked(parts, ids, n)[id] == parts[id].(quantity := Restocked(parts, ids, n)[id].quantity)
  {
    if n > 0 {
      RestockedOnlyQuantity(parts, ids, n - 1, id);
    }
  }

  /** Each selected part grows by exactly its reorder quantity; the others keep theirs. */
  lemma {:induction false} RestockedAt(parts: map<PartId, Part>, ids: seq<PartId>, n: nat, id: PartId)
    requires n <= |ids| && forall k :: 0 <= k < |ids| ==> ids[k] in parts
    requires Distinct(ids) && id in parts
    ensures Restocked(parts, ids, n)[id].quantity
            == parts[id].quantity + (if id in ids[..n] then parts[id].reorderQuantity else 0)
  {
    if n > 0 {
      RestockedAt(parts, ids, n - 1, id);
      assert ids[..n] == ids[..n - 1] + [ids[n - 1]];
      assert ids[n - 1] !in ids[..n - 1];
    }
  }

  /** The entries the first n steps of `restock_action` append, one RESTOCK per part, in selection order. */
  function RestockLogs(parts: map<PartId, Part>, ids: seq<PartId>, n: nat, user: UserId): (logs: seq<InventoryLog>)
    requires n <= |ids| && forall k :: 0 <= k < |ids| ==> ids[k] in parts
    ensures |logs| == n
  {
    if n == 0 then []
    else RestockLogs(parts, ids, n - 1, user) + [RestockLog(ids[n - 1], parts[ids[n - 1]].reorderQuantity, user)]
  }

  /** Entry k is the RESTOCK of the k-th selected part by its reorder quantity, by the acting user. */
  lemma {:induction false} RestockLogsEntries(parts: map<PartId, Part>, ids: seq<PartId>, n: nat, user: UserId)
    requires n <= |ids| && forall k :: 0 <= k < |ids| ==> ids[k] in parts
    ensures forall k :: 0 <= k < n ==>
              RestockLogs(parts, ids, n, user)[k] == RestockLog(ids[k], parts[ids[k]].reorderQuantity, user)
  {
    if n > 0 {
      RestockLogsEntries(parts, ids, n - 1, user);
    }
  }

  /** The restock entries of a selection explain exactly its quantity changes. */
  lemma {:induction false} RestockLogsDelta(parts: map<PartId, Part>, ids: seq<PartId>, n: nat, user: UserId, id: PartId)
    requires n <= |ids| && forall k :: 0 <= k < |ids| ==> ids[k] in parts
    requires id in parts
    ensures Delta(RestockLogs(parts, ids, n, user), id)
            == Restocked(parts, ids, n)[id].quantity - parts[id].quantity
  {
    if n > 0 {
      RestockLogsDelta(parts, ids, n - 1, user, id);
      DeltaAppend(RestockLogs(parts, ids, n - 1, user), RestockLog(ids[n - 1], parts[ids[n - 1]].reorderQuantity, user));
    }
  }

  /** The ledger still balances when the parts change in everything but quantity. */
  lemma BalancedKeepsQuantities(before: map<PartId, Part>, after: map<PartId, Part>,
                                initial: map<PartId, int>, logs: seq<InventoryLog>)
    requires Balanced(before, initial, logs) && after.Keys == before.Keys
    requires forall id :: id in after ==> after[id].quantity == before[id].quantity
    ensures Balanced(after, initial, logs)
  {
  }

  /** The ledger still balances when one part changes in everything but quantity. */
  lemma BalancedKeepsQuantity(parts: map<PartId, Part>, initial: map<PartId, int>, logs: seq<InventoryLog>,
                              id: PartId, p: Part)
    requires Balanced(parts, initial, logs) && id in parts && p.quantity == parts[id].quantity
    ensures Balanced(parts[id := p], initial, logs)
  {
  }

  /** One more step of `restock_action`: the next selected part is restocked and logged. */
  lemma RestockFold(parts0: map<PartId, Part>, logs0: seq<InventoryLog>, ids: seq<PartId>, user: UserId, i: nat,
                    before: map<PartId, Part>, after: map<PartId, Part>,
                    beforeLogs: seq<InventoryLog>, afterLogs: seq<InventoryLog>)
    requires i < |ids| && forall k :: 0 <= k < |ids| ==> ids[k] in parts0
    requires before == Restocked(parts0, ids, i) && beforeLogs == logs0 + RestockLogs(parts0, ids, i, user)
    requires after == before[ids[i] := before[ids[i]].(quantity := before[ids[i]].quantity + parts0[ids[i]].reorderQuantity)]
    requires afterLogs == beforeLogs + [RestockLog(ids[i], parts0[ids[i]].reorderQuantity, user)]
    ensures after == Restocked(parts0, ids, i + 1)
    ensures afterLogs == logs0 + RestockLogs(parts0, ids, i + 1, user)
  {
    var entry := RestockLog(ids[i], parts0[ids[i]].reorderQuantity, user);
    assert RestockLogs(parts0, ids, i + 1, user) == RestockLogs(parts0, ids, i, user) + [entry];
    assert (logs0 + RestockLogs(parts0, ids, i, user)) + [entry] == logs0 + (RestockLogs(parts0, ids, i, user) + [entry]);
  }

  /** Step i of `restock_action`: restock the i-th selected part by its reorder quantity. */
  method RestockNext(store: Store, ghost parts0: map<PartId, Part>, ghost logs0: seq<InventoryLog>,
                     ids: seq<PartId>, i: nat, user: UserId)
    requires store.Valid() && i < |ids| && forall k :: 0 <= k < |ids| ==> ids[k] in parts0
    requires store.parts == Restocked(parts0, ids, i)
    requires store.logs == logs0 + RestockLogs(parts0, ids, i, user)
    modifies store
    ensures store.Valid()
    ensures store.initial == old(store.initial) && store.nextPartId == old(store.nextPartId) && store.nextOrderId == old(store.nextOrderId)
    ensures store.parts == Restocked(parts0, ids, i + 1)
    ensures store.logs == logs0 + RestockLogs(parts0, ids, i + 1, user)
    ensures store.orders == old(store.orders) && store.items == old(store.items)
  {
    var id := ids[i];
    var part := store.parts[id];
    RestockedOnlyQuantity(parts0, ids, i, id);
    ghost var before, beforeLogs := store.parts, store.logs;
    var outcome := store.Restock(id, part.reorderQuantity, user);
    RestockFold(parts0, logs0, ids, user, i, before, store.parts, beforeLogs, store.logs);
  }

  /** `restock_action`: `part.restock(part.reorder_quantity, user)` for each selected part. */
  method RestockAction(store: Store, ids: seq<PartId>, user: UserId)
    requires store.Valid()
    requires forall i :: 0 <= i < |ids| ==> ids[i] in store.parts
    modifies store
    ensures store.Valid()
    ensures store.initial == old(store.initial) && store.nextPartId == old(store.nextPartId) && store.nextOrderId == old(store.nextOrderId)
    ensures store.parts == Restocked(old(store.parts), ids, |ids|)
    ensures store.logs == old(store.logs) + RestockLogs(old(store.parts), ids, |ids|, user)
    ensures store.orders == old(store.orders) && store.items == old(store.items)
  {
    ghost var parts0, logs0 := store.parts, store.logs;
    var i := 0;
    while i < |ids|
      invariant 0 <= i <= |ids|
      invariant store.Valid()
      invariant store.initial == old(store.initial) && store.nextPartId == old(store.nextPartId) && store.nextOrderId == old(store.nextOrderId)
      invariant store.parts == Restocked(parts0, ids, i)
      invariant store.logs == logs0 + RestockLogs(parts0, ids, i, user)
      invariant store.orders == old(store.orders) && store.items == old(store.items)
    {
      RestockNext(store, parts0, logs0, ids, i, user);
      i := i + 1;
    }
  }

  /** The rows after the first n selected parts of `toggle_active` are done:
      `is_active` negated on each of them in turn. */
  function Toggled(parts: map<PartId, Part>, ids: seq<PartId>, n: nat): (r: map<PartId, Part>)
    requires n <= |ids|
    ensures r.Keys == parts.Keys
  {
    if n == 0 then parts
    else
      var prior := Toggled(parts, ids, n - 1);
      var id := ids[n - 1];
      if id in prior then prior[id := prior[id].(isActive := !prior[id].isActive)] else prior
  }

  /** Toggling changes nothing of a part but its `is_active` flag. */
  lemma {:induction false} ToggledOnlyActive(parts: map<PartId, Part>, ids: seq<PartId>, n: nat, id: PartId)
    requires n <= |ids| && id in parts
    ensures Toggled(parts, ids, n)[id] == parts[id].(isActive := Toggled(parts, ids, n)[id].isActive)
  {
    if n > 0 {
      ToggledOnlyActive(parts, ids, n - 1, id);
    }
  }

  /** A selected part's flag is negated and the others keep theirs. */
  lemma {:induction false} ToggledAt(parts: map<PartId, Part>, ids: seq<PartId>, n: nat, id: PartId)
    requires n <= |ids| && Distinct(ids) && id in parts
    ensures Toggled(parts, ids, n)[id].isActive == (parts[id].isActive != (id in ids[..n]))
  {
    if n > 0 {
      ToggledAt(parts, ids, n - 1, id);
      assert ids[..n] == ids[..n - 1] + [ids[n - 1]];
      assert ids[n - 1] !in ids[..n - 1];
    }
  }

  /** How often id occurs among the first n selected ids. */
  function Occurrences(ids: seq<PartId>, n: nat, id: PartId): nat
    requires n <= |ids|
  {
    if n == 0 then 0 else Occurrences(ids, n - 1, id) + (if ids[n - 1] == id then 1 else 0)
  }

  /** Whatever the selection, a part's flag is negated once per occurrence of its id. */
  lemma {:induction false} ToggledParity(parts: map<PartId, Part>, ids: seq<PartId>, n: nat, id: PartId)
    requires n <= |ids| && id in parts
    ensures Toggled(parts, ids, n)[id].isActive == (parts[id].isActive != (Occurrences(ids, n, id) % 2 == 1))
  {
    if n > 0 {
      ToggledParity(parts, ids, n - 1, id);
    }
  }

  /** Toggling the same selection twice restores every part, repeats in the selection included. */
  lemma ToggleTwiceRestores(parts: map<PartId, Part>, ids: seq<PartId>)
    ensures Toggled(Toggled(parts, ids, |ids|), ids, |ids|) == parts
  {
    var once := Toggled(parts, ids, |ids|);
    forall id | id in parts
      ensures Toggled(once, ids, |ids|)[id] == parts[id]
    {
      ToggledParity(parts, ids, |ids|, id);
      ToggledParity(once, ids, |ids|, id);
      ToggledOnlyActive(parts, ids, |ids|, id);
      ToggledOnlyActive(once, ids, |ids|, id);
    }
  }

  /** One more step of `toggle_active`: the next selected part, when stored, is toggled. */
  lemma ToggleFold(parts0: map<PartId, Part>, ids: seq<PartId>, i: nat,
                   before: map<PartId, Part>, after: map<PartId, Part>)
    requires i < |ids| && before == Toggled(parts0, ids, i)
    requires after == if ids[i] in before then before[ids[i] := before[ids[i]].(isActive := !before[ids[i]].isActive)] else before
    ensures after == Toggled(parts0, ids, i + 1)
  {
  }

  /** `toggle_active`: for each selected part, negate `is_active` and save it. */
  method ToggleActive(store: Store, ids: seq<PartId>)
    requires store.Valid()
    modifies store
    ensures store.Valid()
    ensures store.initial == old(store.initial) && store.nextPartId == old(store.nextPartId) && store.nextOrderId == old(store.nextOrderId)
    ensures store.parts == Toggled(old(store.parts), ids, |ids|)
    ensures store.logs == old(store.logs) && store.orders == old(store.orders) && store.items == old(store.items)
  {
    ghost var parts0 := store.parts;
    var i := 0;
    while i < |ids|
      invariant 0 <= i <= |ids|
      invariant store.Valid()
      invariant store.initial == old(store.initial) && store.nextPartId == old(store.nextPartId) && store.nextOrderId == old(store.nextOrderId)
      invariant store.parts == Toggled(parts0, ids, i)
      invariant store.logs == old(store.logs) && store.orders == old(store.orders) && store.items == old(store.items)
    {
      var id := ids[i];
      ghost var before := store.parts;
      if id in store.parts {
        var part := store.parts[id];
        BalancedKeepsQuantity(store.parts, store.initial, store.logs, id, part.(isActive := !part.isActive));
        store.parts := store.parts[id := part.(isActive := !part.isActive)];
      }
      ToggleFold(parts0, ids, i, before, store.parts);
      i := i + 1;
    }
  }

  /** The rows of `queryset.update(approved=v)`. */
  function WithApproved(parts: map<PartId, Part>, ids: set<PartId>, v: bool): (r: map<PartId, Part>)
    ensures r.Keys == parts.Keys
    ensures forall id :: id in parts && id in ids ==> r[id] == parts[id].(approved := v)
    ensures forall id :: id in parts && id !in ids ==> r[id] == parts[id]
  {
    map id | id in parts :: if id in ids then parts[id].(approved := v) else parts[id]
  }

  lemma WithApprovedIdempotent(parts: map<PartId, Part>, ids: set<PartId>, v: bool)
    ensures WithApproved(WithApproved(parts, ids, v), ids, v) == WithApproved(parts, ids, v)
  {
  }

  /** The bulk update behind `approve_parts` and `unapprove_parts`; returns the number of rows updated. */
  method SetApproved(store: Store, ids: set<PartId>, v: bool) returns (updated: nat)
    requires store.Valid()
    modifies store
    ensures store.Valid()
    ensures store.initial == old(store.initial) && store.nextPartId == old(store.nextPartId) && store.nextOrderId == old(store.nextOrderId)
    ensures store.parts == WithApproved(old(store.parts), ids, v)
    ensures updated == |ids * old(store.parts).Keys|
    ensures store.logs == old(store.logs) && store.orders == old(store.orders) && store.items == old(store.items)
  {
    var next := WithApproved(store.parts, ids, v);
    BalancedKeepsQuantities(store.parts, next, store.initial, store.logs);
    updated := |ids * store.parts.Keys|;
    store.parts := next;
  }

  /** `approve_parts`. */
  method ApproveParts(store: Store, ids: set<PartId>) returns (updated: nat)
    requires store.Valid()
    modifies store
    ensures store.Valid()
    ensures store.initial == old(store.initial) && store.nextPartId == old(store.nextPartId) && store.nextOrderId == old(store.nextOrderId)
    ensures store.parts == WithApproved(old(store.parts), ids, true)
    ensures updated == |ids * old(store.parts).Keys|
    ensures store.logs == old(store.logs) && store.orders == old(store.orders) && store.items == old(store.items)
  {
    updated := SetApproved(store, ids, true);
  }

  /** `unapprove_parts`. */
  method UnapproveParts(store: Store, ids: set<PartId>) returns (updated: nat)
    requires store.Valid()
    modifies store
    ensures store.Valid()
    ensures store.initial == old(store.initial) && store.nextPartId == old(store.nextPartId) && store.nextOrderId == old(store.nextOrderId)
    ensures store.parts == WithApproved(old(store.parts), ids, false)
    ensures updated == |ids * old(store.parts).Keys|
    ensures store.logs == old(store.logs) && store.orders == old(store.orders) && store.items == old(store.items)
  {
    updated := SetApproved(store, ids, false);
  }

  /** The rows of `queryset.update(is_featured=True)`. */
  function WithFeatured(parts: map<PartId, Part>, ids: set<PartId>): (r: map<PartId, Part>)
    ensures r.Keys == parts.Keys
    ensures forall id :: id in parts && id in ids ==> r[id] == parts[id].(isFeatured := true)
    ensures forall id :: id in parts && id !in ids ==> r[id] == parts[id]
  {
    map id | id in parts :: if id in ids then parts[id].(isFeatured := true) else parts[id]
  }

  /** `mark_as_featured`. */
  method MarkAsFeatured(store: Store, ids: set<PartId>)
    requires store.Valid()
    modifies store
    ensures store.Valid()
    ensures store.initial == old(store.initial) && store.nextPartId == old(store.nextPartId) && store.nextOrderId == old(store.nextOrderId)
    ensures store.parts == WithFeatured(old(store.parts), ids)
    ensures store.logs == old(store.logs) && store.orders == old(store.orders) && store.items == old(store.items)
  {
    var next := WithFeatured(store.parts, ids);
    BalancedKeepsQuantities(store.parts, next, store.initial, store.logs);
    store.parts := next;
  }

  /** The rows of `queryset.update(status=s)`: the previous status plays no part. */
  function WithStatus(orders: map<OrderId, Order>, ids: set<OrderId>, s: OrderStatus): (r: map<OrderId, Order>)
    ensures r.Keys == orders.Keys
    ensures forall id :: id in orders && id in ids ==> r[id] == orders[id].(status := s)
    ensures forall id :: id in orders && id !in ids ==> r[id] == orders[id]
  {
    map id | id in orders :: if id in ids then orders[id].(status := s) else orders[id]
  }

  /** Overwriting twice keeps only the second status. */
  lemma WithStatusLastWins(orders: map<OrderId, Order>, ids: set<OrderId>, s: OrderStatus, t: OrderStatus)
    ensures WithStatus(WithStatus(orders, ids, s), ids, t) == WithStatus(orders, ids, t)
  {
  }

  /** The update shared by the four order status actions. No stock moves. */
  method SetOrderStatus(store: Store, ids: set<OrderId>, s: OrderStatus)
    requires store.Valid()
    modifies store
    ensures store.Valid()
    ensures store.initial == old(store.initial) && store.nextPartId == old(store.nextPartId) && store.nextOrderId == old(store.nextOrderId)
    ensures store.orders == WithStatus(old(store.orders), ids, s)
    ensures store.parts == old(store.parts) && store.logs == old(store.logs) && store.items == old(store.items)
  {
    store.orders := WithStatus(store.orders, ids, s);
  }

  /** `mark_as_processing`. */
  method MarkAsProcessing(store: Store, ids: set<OrderId>)
    requires store.Valid()
    modifies store
    ensures store.Valid()
    ensures store.initial == old(store.initial) && store.nextPartId == old(store.nextPartId) && store.nextOrderId == old(store.nextOrderId)
    ensures store.orders == WithStatus(old(store.orders), ids, Processing)
    ensures store.parts == old(store.parts) && store.logs == old(store.logs) && store.items == old(store.items)
  {
    SetOrderStatus(store, ids, Processing);
  }

  /** `mark_as_shipped`. */
  method MarkAsShipped(store: Store, ids: set<OrderId>)
    requires store.Valid()
    modifies store
    ensures store.Valid()
    ensures store.initial == old(store.initial) && store.nextPartId == old(store.nextPartId) && store.nextOrderId == old(store.nextOrderId)
    ensures store.orders == WithStatus(old(store.orders), ids, Shipped)
    ensures store.parts == old(store.parts) && store.logs == old(store.logs) && store.items == old(store.items)
  {
    SetOrderStatus(store, ids, Shipped);
  }

  /** `mark_as_delivered`. */
  method MarkAsDelivered(store: Store, ids: set<OrderId>)
    requires store.Valid()
    modifies store
    ensures store.Valid()
    ensures store.initial == old(store.initial) && store.nextPartId == old(store.nextPartId) && store.nextOrderId == old(store.nextOrderId)
    ensures store.orders == WithStatus(old(store.orders), ids, Delivered)
    ensures store.parts == old(store.parts) && store.logs == old(store.logs) && store.items == old(store.items)
  {
    SetOrderStatus(store, ids, Delivered);
  }

  /** `mark_as_cancelled`: the items' stock is not returned. */
  method MarkAsCancelled(store: Store, ids: set<OrderId>)
    requires store.Valid()
    modifies store
    ensures store.Valid()
    ensures store.initial == old(store.initial) && store.nextPartId == old(store.nextPartId) && store.nextOrderId == old(store.nextOrderId)
    ensures store.orders == WithStatus(old(store.orders), ids, Cancelled)
    ensures store.parts == old(store.parts) && store.logs == old(store.logs) && store.items == old(store.items)
  {
    SetOrderStatus(store, ids, Cancelled);
  }
}

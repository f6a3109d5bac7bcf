/** The order-item controller: client-priced creation and update, deletion
    and quantity changes gated on the owning order, the per-order listing,
    and the bulk add that snapshots product prices. */
module OrderItems {
  import opened Common
  import opened Orders
  import ProductModel
  import Products

  /** A row of the order_items table; prices are in cents. */
  datatype OrderItem = OrderItem(
    orderId: int,
    productId: int,
    quantity: int,
    unitPrice: int,
    subtotal: int,
    notes: Option<string>)

  /** The derived-field rule: the subtotal is the unit price times the quantity. */
  predicate Consistent(i: OrderItem)
  {
    i.subtotal == i.unitPrice * i.quantity
  }

  /** The fields of a store or update request; prices are whatever the
      client sends. */
  datatype ItemRequest = ItemRequest(
    orderId: Param<int>,
    productId: Param<int>,
    quantity: Param<int>,
    unitPrice: Param<int>,
    subtotal: Param<int>,
    notes: Param<string>)

  /** One element of the `items` array of a bulk add. */
  datatype BulkEntry = BulkEntry(productId: Param<int>, quantity: Param<int>, notes: Param<string>)

  /** `items` is `Invalid` when it is not an array. */
  datatype BulkRequest = BulkRequest(orderId: Param<int>, items: Param<seq<BulkEntry>>)

  // ----- Store and update -----

  /** The rules of `store` other than the two existence checks. */
  predicate ItemFields(r: ItemRequest)
  {
    && r.orderId.Given?
    && r.productId.Given?
    && RequiredAtLeast(r.quantity, 1)
    && RequiredAtLeast(r.unitPrice, 0)
    && RequiredAtLeast(r.subtotal, 0)
    && NullableText(r.notes)
  }

  /** The validation rules of `store`: an existing order and product, a
      quantity of at least one, prices not negative. The order's status is
      not consulted. */
  function ValidNewItem(r: ItemRequest, orderIds: set<int>, productIds: set<int>): (ok: bool)
    ensures ok ==> r.orderId.Given? && r.orderId.value in orderIds
    ensures ok ==> r.productId.Given? && r.productId.value in productIds
    ensures ok ==> r.quantity.Given? && r.quantity.value >= 1
    ensures ok ==> r.unitPrice.Given? && r.unitPrice.value >= 0 && r.subtotal.Given? && r.subtotal.value >= 0
  {
    RequiredIn(r.orderId, orderIds) && RequiredIn(r.productId, productIds) && ItemFields(r)
  }

  /** `OrderItem::create($request->all())`: the client's own unit price and
      subtotal are stored as sent. */
  function NewItem(r: ItemRequest): (i: OrderItem)
    requires ItemFields(r)
    ensures i.orderId == r.orderId.value && i.productId == r.productId.value
    ensures i.quantity == r.quantity.value >= 1
    ensures i.unitPrice == r.unitPrice.value >= 0 && i.subtotal == r.subtotal.value >= 0
    ensures i.notes == TextOrNull(r.notes)
  {
    OrderItem(r.orderId.value, r.productId.value, r.quantity.value, r.unitPrice.value,
              r.subtotal.value, TextOrNull(r.notes))
  }

  /** `store` accepts a request whose subtotal disagrees with its unit price
      and quantity, and stores the inconsistent row. */
  lemma StoreAcceptsInconsistentSubtotal(orderId: int, productId: int)
    ensures var r := ItemRequest(Given(orderId), Given(productId), Given(3), Given(1550), Given(0), Absent);
      ValidNewItem(r, {orderId}, {productId}) && !Consistent(NewItem(r))
  {
  }

  /** The rules of `update` other than the two existence checks. */
  predicate ItemPatchFields(r: ItemRequest)
  {
    && OptionalAtLeast(r.quantity, 1)
    && OptionalAtLeast(r.unitPrice, 0)
    && OptionalAtLeast(r.subtotal, 0)
    && NullableText(r.notes)
  }

  /** The validation rules of `update`: every field optional, each sent
      one held to the rule `store` applies. */
  function ValidItemPatch(r: ItemRequest, orderIds: set<int>, productIds: set<int>): (ok: bool)
    ensures r == ItemRequest(Absent, Absent, Absent, Absent, Absent, Absent) ==> ok
    ensures ok && r.orderId.Given? ==> r.orderId.value in orderIds
    ensures ok && r.productId.Given? ==> r.productId.value in productIds
    ensures ok && r.quantity.Given? ==> r.quantity.value >= 1
    ensures ok ==> !r.quantity.Null? && !r.unitPrice.Null? && !r.subtotal.Null?
  {
    OptionalIn(r.orderId, orderIds) && OptionalIn(r.productId, productIds) && ItemPatchFields(r)
  }

  /** `$orderItem->update($request->all())`: the sent fields are written as
      sent, the others keep their values; nothing is recomputed. */
  function PatchItem(i: OrderItem, r: ItemRequest): (p: OrderItem)
    requires ItemPatchFields(r)
    ensures p.orderId == Patch(r.orderId, i.orderId) && p.productId == Patch(r.productId, i.productId)
    ensures p.quantity == Patch(r.quantity, i.quantity)
    ensures p.unitPrice == Patch(r.unitPrice, i.unitPrice) && p.subtotal == Patch(r.subtotal, i.subtotal)
    ensures p.notes == PatchText(r.notes, i.notes)
  {
    OrderItem(
      Patch(r.orderId, i.orderId),
      Patch(r.productId, i.productId),
      Patch(r.quantity, i.quantity),
      Patch(r.unitPrice, i.unitPrice),
      Patch(r.subtotal, i.subtotal),
      PatchText(r.notes, i.notes))
  }

  /** Unlike `updateQuantity`, a generic update of the quantity alone keeps
      the old subtotal, so a consistent row stops being consistent. */
  lemma PatchQuantityKeepsSubtotal(i: OrderItem, q: int)
    requires Consistent(i) && q >= 1 && q != i.quantity && i.unitPrice != 0
    ensures var p := PatchItem(i, ItemRequest(Absent, Absent, Given(q), Absent, Absent, Absent));
      p.quantity == q && p.subtotal == i.subtotal && !Consistent(p)
  {
  }

  // ----- Quantity update -----

  /** What `updateQuantity` writes: the new quantity and the subtotal
      recomputed from the unchanged unit price. */
  function Requantified(i: OrderItem, q: int): (r: OrderItem)
    ensures r.quantity == q && Consistent(r)
    ensures r.unitPrice == i.unitPrice && r.orderId == i.orderId && r.productId == i.productId && r.notes == i.notes
  {
    i.(quantity := q, subtotal := i.unitPrice * q)
  }

  /** Quantity changes do not accumulate: only the last one counts, and the
      snapshot price survives all of them. */
  lemma RequantifiedLastWins(i: OrderItem, a: int, b: int)
    ensures Requantified(Requantified(i, a), b) == Requantified(i, b)
  {
  }

  /** An item priced 15.50 ordered three times costs 46.50; changing the
      quantity to five makes it 77.50 at the same unit price. */
  lemma RequantifiedExample(orderId: int, productId: int)
    ensures var i := OrderItem(orderId, productId, 3, 1550, 4650, None);
      Consistent(i) && Requantified(i, 5).subtotal == 7750 && Requantified(i, 5).unitPrice == 1550
  {
  }

  // ----- Bulk add -----

  /** The rules for one entry of `items`. */
  predicate ValidEntry(e: BulkEntry, productIds: set<int>)
  {
    RequiredIn(e.productId, productIds) && RequiredAtLeast(e.quantity, 1) && NullableText(e.notes)
  }

  /** The validation rules of `bulkAdd`: an existing order, a non-empty
      array, and every entry naming an existing product. */
  function ValidBulk(r: BulkRequest, orderIds: set<int>, productIds: set<int>): (ok: bool)
    ensures ok ==> r.orderId.Given? && r.orderId.value in orderIds && r.items.Given? && r.items.value != []
    ensures ok ==> forall k | 0 <= k < |r.items.value| ::
      && r.items.value[k].productId.Given? && r.items.value[k].productId.value in productIds
      && r.items.value[k].quantity.Given? && r.items.value[k].quantity.value >= 1
  {
    && RequiredIn(r.orderId, orderIds)
    && r.items.Given? && |r.items.value| > 0
    && forall k | 0 <= k < |r.items.value| :: ValidEntry(r.items.value[k], productIds)
  }

  /** What the loop of `bulkAdd` reads from an entry: its product id and
      quantity. */
  predicate Shaped(e: BulkEntry)
  {
    e.productId.Given? && e.quantity.Given?
  }

  /** The item the loop builds for an entry whose product costs `price`. */
  function ItemFor(orderId: int, e: BulkEntry, price: int): (i: OrderItem)
    requires Shaped(e)
    ensures i.orderId == orderId && i.productId == e.productId.value && i.quantity == e.quantity.value
    ensures i.unitPrice == price && Consistent(i)
    ensures i.notes == TextOrNull(e.notes)
  {
    OrderItem(orderId, e.productId.value, e.quantity.value, price, price * e.quantity.value, TextOrNull(e.notes))
  }

  /** Whether the loop finds a product for an entry. */
  predicate Resolves(e: BulkEntry, catalog: map<int, ProductModel.Product>)
  {
    Shaped(e) && e.productId.value in catalog
  }

  /** The items the loop adds for one entry: one when the product resolves,
      none otherwise. */
  function Emit(orderId: int, e: BulkEntry, catalog: map<int, ProductModel.Product>): (s: seq<OrderItem>)
    ensures |s| <= 1 && (s != [] <==> Resolves(e, catalog))
    ensures s != [] ==> s[0].orderId == orderId && s[0].productId == e.productId.value
    ensures s != [] ==> s[0].unitPrice == catalog[e.productId.value].price
  {
    if Resolves(e, catalog) then [ItemFor(orderId, e, catalog[e.productId.value].price)] else []
  }

  /** The items `bulkAdd` creates, in input order. */
  function Snapshot(orderId: int, entries: seq<BulkEntry>, catalog: map<int, ProductModel.Product>): (s: seq<OrderItem>)
    ensures |s| <= |entries|
  {
    if entries == [] then []
    else Snapshot(orderId, entries[..|entries| - 1], catalog) + Emit(orderId, entries[|entries| - 1], catalog)
  }

  /** Every created item belongs to the order, carries its product's price
      as its unit price and has a consistent subtotal. */
  lemma {:induction false} SnapshotItems(orderId: int, entries: seq<BulkEntry>, catalog: map<int, ProductModel.Product>)
    ensures forall i | i in Snapshot(orderId, entries, catalog) ::
      && i.orderId == orderId && i.productId in catalog
      && i.unitPrice == catalog[i.productId].price && Consistent(i)
  {
    if entries != [] {
      SnapshotItems(orderId, entries[..|entries| - 1], catalog);
    }
  }

  /** Processing a batch is processing its two halves one after the other. */
  lemma {:induction false} SnapshotAppend(orderId: int, a: seq<BulkEntry>, b: seq<BulkEntry>, catalog: map<int, ProductModel.Product>)
    ensures Snapshot(orderId, a + b, catalog) == Snapshot(orderId, a, catalog) + Snapshot(orderId, b, catalog)
    decreases |b|
  {
    if b == [] {
      assert a + b == a;
    } else {
      var init := b[..|b| - 1];
      assert (a + b)[..|a + b| - 1] == a + init;
      assert (a + b)[|a + b| - 1] == b[|b| - 1];
      SnapshotAppend(orderId, a, init, catalog);
    }
  }

  /** An entry whose product does not resolve is skipped without aborting
      the entries after it. */
  lemma {:induction false} SnapshotSkipsUnresolved(orderId: int, a: seq<BulkEntry>, e: BulkEntry, b: seq<BulkEntry>,
                                                    catalog: map<int, ProductModel.Product>)
    requires !Resolves(e, catalog)
    ensures Snapshot(orderId, a + [e] + b, catalog) == Snapshot(orderId, a, catalog) + Snapshot(orderId, b, catalog)
  {
    assert (a + [e])[..|a|] == a;
    assert Snapshot(orderId, a + [e], catalog) == Snapshot(orderId, a, catalog);
    SnapshotAppend(orderId, a + [e], b, catalog);
  }

  /** When every product resolves there is exactly one item per entry, in
      input order. */
  lemma {:induction false} SnapshotOnePerEntry(orderId: int, entries: seq<BulkEntry>, catalog: map<int, ProductModel.Product>)
    requires forall k | 0 <= k < |entries| :: Resolves(entries[k], catalog)
    ensures |Snapshot(orderId, entries, catalog)| == |entries|
    ensures forall k | 0 <= k < |entries| ::
      && Resolves(entries[k], catalog)
      && Snapshot(orderId, entries, catalog)[k] == ItemFor(orderId, entries[k], catalog[entries[k].productId.value].price)
  {
    if entries != [] {
      SnapshotOnePerEntry(orderId, entries[..|entries| - 1], catalog);
    }
  }

  /** The rows the loop inserts: consecutive keys from `start`, in order. */
  function NewRows(start: int, added: seq<OrderItem>): (rows: map<int, OrderItem>)
    ensures forall id :: id in rows <==> start <= id < start + |added|
    ensures forall k | 0 <= k < |added| :: rows[start + k] == added[k]
  {
    if added == [] then map[]
    else NewRows(start, added[..|added| - 1])[start + |added| - 1 := added[|added| - 1]]
  }

  /** One more loop iteration extends the snapshot by the entry's item when
      its product resolves, and by nothing otherwise. */
  lemma SnapshotStep(orderId: int, entries: seq<BulkEntry>, i: int, catalog: map<int, ProductModel.Product>)
    requires 0 <= i < |entries|
    ensures Resolves(entries[i], catalog) ==>
      Snapshot(orderId, entries[..i + 1], catalog) ==
      Snapshot(orderId, entries[..i], catalog) + [ItemFor(orderId, entries[i], catalog[entries[i].productId.value].price)]
    ensures !Resolves(entries[i], catalog) ==>
      Snapshot(orderId, entries[..i + 1], catalog) == Snapshot(orderId, entries[..i], catalog)
  {
    assert entries[..i + 1][..i] == entries[..i];
  }

  lemma NewRowsSnoc(start: int, added: seq<OrderItem>, item: OrderItem)
    ensures NewRows(start, added + [item]) == NewRows(start, added)[start + |added| := item]
  {
    assert (added + [item])[..|added|] == added;
  }

  lemma UnionUpdate<K, V>(a: map<K, V>, b: map<K, V>, k: K, v: V)
    ensures a + b[k := v] == (a + b)[k := v]
  {
  }

  // ----- Per-order listing -----

  /** The rows of `items` that belong to order `orderId`. */
  function ItemsOf(items: map<int, OrderItem>, orderId: int): (r: map<int, OrderItem>)
    ensures forall id :: id in r <==> id in items && items[id].orderId == orderId
    ensures forall id | id in r :: r[id] == items[id]
  {
    map id | id in items && items[id].orderId == orderId :: items[id]
  }

  class OrderItemController {
    /** The order_items table by primary key. */
    var items: map<int, OrderItem>
    /** The next auto-increment key. */
    var nextId: int
    /** The orders table, read for existence and for the closed-order guard. */
    const orders: OrderController
    /** The products table, read for existence and for prices. */
    const products: Products.ProductController

    ghost predicate Valid()
      reads this
    {
      KeysBelow(items, nextId)
    }

    constructor (orders: OrderController, products: Products.ProductController)
      ensures Valid() && items == map[] && this.orders == orders && this.products == products
    {
      this.orders := orders;
      this.products := products;
      items := map[];
      nextId := 1;
    }

    /** The guard of `destroy` and `updateQuantity`: the owning order exists
        and is completed or cancelled. A missing order does not block. */
    function OrderClosed(orderId: int): (closed: bool)
      reads orders
      ensures orderId !in orders.orders ==> !closed
      ensures closed ==> orders.orders[orderId].status == Completed || orders.orders[orderId].status == Cancelled
      ensures orderId in orders.orders && orders.orders[orderId].status == Pending ==> !closed
    {
      orderId in orders.orders && Closed(orders.orders[orderId].status)
    }

    /** `show`. */
    function Show(id: int): (r: Result<OrderItem>)
      reads this
      ensures r.Fail? <==> id !in items
      ensures r.Fail? ==> r.code == NotFound
      ensures r.Ok? ==> r.value == items[id]
    {
      if id in items then Ok(items[id]) else Fail(NotFound)
    }

    /** `getByOrder`: 404 for an unknown order, otherwise its items. */
    function ByOrder(orderId: int): (r: Result<map<int, OrderItem>>)
      reads this, orders
      ensures r.Fail? <==> orderId !in orders.orders
      ensures r.Fail? ==> r.code == NotFound
      ensures r.Ok? ==> r.value == ItemsOf(items, orderId)
      ensures r.Ok? ==> forall id | id in r.value :: r.value[id].orderId == orderId
    {
      if orderId in orders.orders then Ok(ItemsOf(items, orderId)) else Fail(NotFound)
    }

    /** `store`: validate and insert the client's row; open or closed order alike. */
    method Store(req: ItemRequest) returns (code: Code, id: int)
      requires Valid()
      modifies this
      ensures Valid()
      ensures code == Created <==> ValidNewItem(req, orders.orders.Keys, products.products.Keys)
      ensures code != Created ==> code == Unprocessable && items == old(items) && nextId == old(nextId)
      ensures code == Created ==>
        id == old(nextId) && id !in old(items) && nextId == id + 1
        && items == old(items)[id := NewItem(req)]
    {
      id := nextId;
      if !ValidNewItem(req, orders.orders.Keys, products.products.Keys) {
        code := Unprocessable;
        return;
      }
      id := Insert(NewItem(req));
      code := Created;
    }

    /** `update`: 404, then 422, then a partial write; no status guard. */
    method Update(id: int, req: ItemRequest) returns (code: Code)
      requires Valid()
      modifies this
      ensures Valid() && nextId == old(nextId)
      ensures id !in old(items) ==> code == NotFound && items == old(items)
      ensures id in old(items) && !ValidItemPatch(req, orders.orders.Keys, products.products.Keys) ==>
        code == Unprocessable && items == old(items)
      ensures id in old(items) && ValidItemPatch(req, orders.orders.Keys, products.products.Keys) ==>
        code == OK && items == old(items)[id := PatchItem(old(items)[id], req)]
    {
      if id !in items {
        code := NotFound;
        return;
      }
      if !ValidItemPatch(req, orders.orders.Keys, products.products.Keys) {
        code := Unprocessable;
        return;
      }
      items := items[id := PatchItem(items[id], req)];
      code := OK;
    }

    /** `destroy`: 404, then 400 on a closed order, then a hard delete. */
    method Destroy(id: int) returns (code: Code)
      requires Valid()
      modifies this
      ensures Valid() && nextId == old(nextId)
      ensures id !in old(items) ==> code == NotFound && items == old(items)
      ensures id in old(items) && OrderClosed(old(items)[id].orderId) ==> code == BadRequest && items == old(items)
      ensures id in old(items) && !OrderClosed(old(items)[id].orderId) ==>
        code == OK && items == old(items) - {id} && |items| == |old(items)| - 1
    {
      if id !in items {
        code := NotFound;
        return;
      }
      var orderId := items[id].orderId;
      if OrderClosed(orderId) {
        code := BadRequest;
        return;
      }
      items := items - {id};
      code := OK;
    }

    /** `updateQuantity`: 404, then 400 on a closed order (before any
        validation), then 422, then the quantity and the recomputed subtotal. */
    method UpdateQuantity(id: int, quantity: Param<int>) returns (code: Code)
      requires Valid()
      modifies this
      ensures Valid() && nextId == old(nextId)
      ensures id !in old(items) ==> code == NotFound && items == old(items)
      ensures id in old(items) && OrderClosed(old(items)[id].orderId) ==> code == BadRequest && items == old(items)
      ensures id in old(items) && !OrderClosed(old(items)[id].orderId) && !RequiredAtLeast(quantity, 1) ==>
        code == Unprocessable && items == old(items)
      ensures id in old(items) && !OrderClosed(old(items)[id].orderId) && RequiredAtLeast(quantity, 1) ==>
        code == OK && items == old(items)[id := Requantified(old(items)[id], quantity.value)]
    {
      if id !in items {
        code := NotFound;
        return;
      }
      var item := items[id];
      if OrderClosed(item.orderId) {
        code := BadRequest;
        return;
      }
      if !RequiredAtLeast(quantity, 1) {
        code := Unprocessable;
        return;
      }
      item := item.(quantity := quantity.value);
      item := item.(subtotal := item.unitPrice * quantity.value);
      items := items[id := item];
      code := OK;
    }

    /** `bulkAdd`: 422 unless the request validates, 400 on a closed order,
        otherwise one new row per entry, priced from the product table. */
    method BulkAdd(req: BulkRequest) returns (code: Code, added: seq<OrderItem>)
      requires Valid()
      modifies this
      ensures Valid()
      ensures !ValidBulk(req, orders.orders.Keys, products.products.Keys) ==>
        code == Unprocessable && added == [] && items == old(items) && nextId == old(nextId)
      ensures ValidBulk(req, orders.orders.Keys, products.products.Keys) && Closed(orders.orders[req.orderId.value].status) ==>
        code == BadRequest && added == [] && items == old(items) && nextId == old(nextId)
      ensures ValidBulk(req, orders.orders.Keys, products.products.Keys) && !Closed(orders.orders[req.orderId.value].status) ==>
        && code == Created
        && added == Snapshot(req.orderId.value, req.items.value, products.products)
        && |added| == |req.items.value|
        && nextId == old(nextId) + |added|
        && items == old(items) + NewRows(old(nextId), added)
    {
      added := [];
      if !ValidBulk(req, orders.orders.Keys, products.products.Keys) {
        code := Unprocessable;
        return;
      }
      if OrderClosed(req.orderId.value) {
        code := BadRequest;
        return;
      }
      added := AddEntries(req.orderId.value, req.items.value);
      SnapshotOnePerEntry(req.orderId.value, req.items.value, products.products);
      code := Created;
    }

    /** `OrderItem::create`: the row goes in under the next key. */
    method Insert(item: OrderItem) returns (id: int)
      requires Valid()
      modifies this
      ensures Valid()
      ensures id == old(nextId) && id !in old(items) && nextId == id + 1
      ensures items == old(items)[id := item]
    {
      id := nextId;
      items := items[id := item];
      nextId := nextId + 1;
    }

    /** Inserting one more row extends the block of rows a loop has
        inserted since `start` over the table `base`. */
    method InsertNext(ghost base: map<int, OrderItem>, ghost start: int, ghost added: seq<OrderItem>, item: OrderItem)
      requires Valid() && nextId == start + |added| && items == base + NewRows(start, added)
      modifies this
      ensures Valid() && nextId == start + |added| + 1
      ensures items == base + NewRows(start, added + [item])
    {
      NewRowsSnoc(start, added, item);
      UnionUpdate(base, NewRows(start, added), nextId, item);
      var _ := Insert(item);
    }

    /** The loop of `bulkAdd`: for each entry, look the product up; if it
        resolves, insert an item priced from it, otherwise skip the entry. */
    method AddEntries(orderId: int, entries: seq<BulkEntry>) returns (added: seq<OrderItem>)
      requires Valid()
      modifies this
      ensures Valid()
      ensures added == Snapshot(orderId, entries, products.products)
      ensures nextId == old(nextId) + |added|
      ensures items == old(items) + NewRows(old(nextId), added)
    {
      added := [];
      var i := 0;
      var catalog := products.products;
      while i < |entries|
        invariant 0 <= i <= |entries|
        invariant added == Snapshot(orderId, entries[..i], catalog)
        invariant nextId == old(nextId) + |added|
        invariant items == old(items) + NewRows(old(nextId), added)
        invariant Valid()
      {
        var e := entries[i];
        SnapshotStep(orderId, entries, i, catalog);
        if Resolves(e, catalog) {
          var item := ItemFor(orderId, e, catalog[e.productId.value].price);
          InsertNext(old(items), old(nextId), added, item);
          added := added + [item];
        }
        i := i + 1;
      }
      assert entries[..|entries|] == entries;
    }
  }
}

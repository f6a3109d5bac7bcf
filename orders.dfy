/** The order table and its lifecycle: creation with a generated order
    number, the generic partial update, the unrestricted status update, the
    one-sided cancel guard and the by-status listing. */
module Orders {
  import opened Common

  /** The `status` enum of the orders table. */
  datatype OrderStatus = Pending | Preparing | Ready | Completed | Cancelled

  /** The `order_type` enum of the orders table. */
  datatype OrderType = DineIn | Takeaway | Delivery

  /** A terminal order: its items may no longer change. */
  predicate Closed(s: OrderStatus)
  {
    s == Completed || s == Cancelled
  }

  function StatusName(s: OrderStatus): string
  {
    match s
    case Pending => "pending"
    case Preparing => "preparing"
    case Ready => "ready"
    case Completed => "completed"
    case Cancelled => "cancelled"
  }

  /** The rule `in:pending,preparing,ready,completed,cancelled`, giving the
      enum value it accepts. */
  function ParseStatus(s: string): (r: Option<OrderStatus>)
    ensures r.Some? ==> StatusName(r.value) == s
  {
    if s == "pending" then Some(Pending)
    else if s == "preparing" then Some(Preparing)
    else if s == "ready" then Some(Ready)
    else if s == "completed" then Some(Completed)
    else if s == "cancelled" then Some(Cancelled)
    else None
  }

  lemma StatusNameParses(s: OrderStatus)
    ensures ParseStatus(StatusName(s)) == Some(s)
  {
  }

  function OrderTypeName(t: OrderType): string
  {
    match t
    case DineIn => "dine_in"
    case Takeaway => "takeaway"
    case Delivery => "delivery"
  }

  /** The rule `in:dine_in,takeaway,delivery`. */
  function ParseOrderType(s: string): (r: Option<OrderType>)
    ensures r.Some? ==> OrderTypeName(r.value) == s
  {
    if s == "dine_in" then Some(DineIn)
    else if s == "takeaway" then Some(Takeaway)
    else if s == "delivery" then Some(Delivery)
    else None
  }

  lemma OrderTypeNameParses(t: OrderType)
    ensures ParseOrderType(OrderTypeName(t)) == Some(t)
  {
  }

  /** A row of the orders table; amounts are in cents (`decimal:2`). */
  datatype Order = Order(
    orderNumber: string,
    userId: int,
    table: Option<string>,
    orderType: OrderType,
    status: OrderStatus,
    subtotal: int,
    tax: int,
    discount: int,
    total: int,
    notes: Option<string>)

  predicate AmountsValid(o: Order)
  {
    o.subtotal >= 0 && o.tax >= 0 && o.discount >= 0 && o.total >= 0
  }

  /** The fields of a store or update request. `orderNumber` is fillable
      and unvalidated: update writes it, store overwrites it. */
  datatype OrderRequest = OrderRequest(
    userId: Param<int>,
    table: Param<string>,
    orderType: Param<string>,
    status: Param<string>,
    subtotal: Param<int>,
    tax: Param<int>,
    discount: Param<int>,
    total: Param<int>,
    notes: Param<string>,
    orderNumber: Param<string>)

  // ----- Order numbers -----

  /** The alphabet of `Str::random`. */
  predicate IsAlnum(c: char)
  {
    'a' <= c <= 'z' || 'A' <= c <= 'Z' || '0' <= c <= '9'
  }

  predicate IsUpperAlnum(c: char)
  {
    'A' <= c <= 'Z' || '0' <= c <= '9'
  }

  /** What `Str::random(8)` returns. */
  predicate IsRandomToken(s: string)
  {
    |s| == 8 && forall i | 0 <= i < |s| :: IsAlnum(s[i])
  }

  /** `strtoupper` on one ASCII character: a lower-case letter becomes its
      capital, every other character is left alone. */
  function UpperChar(c: char): (u: char)
    ensures IsAlnum(c) ==> IsUpperAlnum(u)
    ensures 'a' <= c <= 'z' ==> 'A' <= u <= 'Z' && u as int - 'A' as int == c as int - 'a' as int
    ensures !('a' <= c <= 'z') ==> u == c
    ensures !('a' <= u <= 'z')
  {
    if 'a' <= c <= 'z' then (c as int - 'a' as int + 'A' as int) as char else c
  }

  /** `strtoupper`: the same length, each character upper-cased in place. */
  function Upper(s: string): (u: string)
    ensures |u| == |s|
    ensures forall i | 0 <= i < |s| :: IsAlnum(s[i]) ==> IsUpperAlnum(u[i])
    ensures forall i | 0 <= i < |s| :: IsUpperAlnum(s[i]) ==> u[i] == s[i]
    ensures forall i | 0 <= i < |s| :: 'a' <= s[i] <= 'z' ==> u[i] as int - 'A' as int == s[i] as int - 'a' as int
    ensures forall i | 0 <= i < |s| :: !('a' <= s[i] <= 'z') ==> u[i] == s[i]
  {
    seq(|s|, i requires 0 <= i < |s| => UpperChar(s[i]))
  }

  /** Upper-casing twice is upper-casing once. */
  lemma {:induction false} UpperIdempotent(s: string)
    ensures Upper(Upper(s)) == Upper(s)
  {
    var u := Upper(s);
    forall i | 0 <= i < |s|
      ensures Upper(u)[i] == u[i]
    {
      assert u[i] == UpperChar(s[i]);
    }
  }

  /** `'ORD-' . strtoupper(Str::random(8))`. */
  function OrderNumber(random: string): (r: string)
    requires IsRandomToken(random)
    ensures |r| == 12 && r[..4] == "ORD-"
    ensures forall i | 4 <= i < |r| :: IsUpperAlnum(r[i])
  {
    "ORD-" + Upper(random)
  }

  // ----- Store -----

  /** The validation rules of `store`: an existing user, a type and a
      status from their enums, subtotal, tax and total present and not
      negative, a discount not negative when sent. */
  function ValidNewOrder(r: OrderRequest, users: set<int>): (ok: bool)
    ensures ok ==> r.userId.Given? && r.userId.value in users
    ensures ok ==> r.orderType.Given? && ParseOrderType(r.orderType.value).Some?
    ensures ok ==> r.status.Given? && ParseStatus(r.status.value).Some?
    ensures ok ==> r.subtotal.Given? && r.subtotal.value >= 0 && r.tax.Given? && r.tax.value >= 0
    ensures ok ==> r.total.Given? && r.total.value >= 0
    ensures ok ==> r.discount.Absent? || (r.discount.Given? && r.discount.value >= 0)
  {
    RequiredIn(r.userId, users) && NewOrderFields(r)
  }

  /** The rules of `store` other than the user's existence. */
  predicate NewOrderFields(r: OrderRequest)
  {
    && r.userId.Given?
    && NullableString(r.table, 255)
    && r.orderType.Given? && ParseOrderType(r.orderType.value).Some?
    && r.status.Given? && ParseStatus(r.status.value).Some?
    && RequiredAtLeast(r.subtotal, 0)
    && RequiredAtLeast(r.tax, 0)
    && OptionalAtLeast(r.discount, 0)
    && RequiredAtLeast(r.total, 0)
    && NullableText(r.notes)
  }

  /** The row `store` inserts: the request's fields, the generated number,
      and the column default 0 for an absent discount. */
  function NewOrder(r: OrderRequest, number: string): (o: Order)
    requires NewOrderFields(r)
    ensures o.orderNumber == number && o.userId == r.userId.value
    ensures StatusName(o.status) == r.status.value
    ensures OrderTypeName(o.orderType) == r.orderType.value
    ensures o.subtotal == r.subtotal.value && o.tax == r.tax.value && o.total == r.total.value
    ensures o.discount == (if r.discount.Given? then r.discount.value else 0)
    ensures o.table == TextOrNull(r.table) && o.notes == TextOrNull(r.notes)
    ensures AmountsValid(o)
  {
    Order(number, r.userId.value, TextOrNull(r.table),
          ParseOrderType(r.orderType.value).value, ParseStatus(r.status.value).value,
          r.subtotal.value, r.tax.value, Patch(r.discount, 0), r.total.value,
          TextOrNull(r.notes))
  }

  // ----- Generic update -----

  /** The validation rules of `update`: every field optional, each sent
      one held to the rule `store` applies. */
  function ValidOrderPatch(r: OrderRequest, users: set<int>): (ok: bool)
    ensures r == OrderRequest(Absent, Absent, Absent, Absent, Absent, Absent, Absent, Absent, Absent, Absent) ==> ok
    ensures ok && r.status.Given? ==> ParseStatus(r.status.value).Some?
    ensures ok && r.userId.Given? ==> r.userId.value in users
    ensures ok ==> !r.subtotal.Null? && !r.tax.Null? && !r.discount.Null? && !r.total.Null?
  {
    OptionalIn(r.userId, users) && OrderPatchFields(r)
  }

  /** The rules of `update` other than the user's existence. */
  predicate OrderPatchFields(r: OrderRequest)
  {
    && NullableString(r.table, 255)
    && (r.orderType.Absent? || (r.orderType.Given? && ParseOrderType(r.orderType.value).Some?))
    && (r.status.Absent? || (r.status.Given? && ParseStatus(r.status.value).Some?))
    && OptionalAtLeast(r.subtotal, 0)
    && OptionalAtLeast(r.tax, 0)
    && OptionalAtLeast(r.discount, 0)
    && OptionalAtLeast(r.total, 0)
    && NullableText(r.notes)
  }

  /** `$order->update($request->all())`: every field the request carries is
      written, every other keeps its value; no transition rule applies to
      `status`. */
  function PatchOrder(o: Order, r: OrderRequest): (p: Order)
    requires OrderPatchFields(r)
    ensures r.status.Given? ==> StatusName(p.status) == r.status.value
    ensures !r.status.Given? ==> p.status == o.status
    ensures r.orderType.Given? ==> OrderTypeName(p.orderType) == r.orderType.value
    ensures !r.orderType.Given? ==> p.orderType == o.orderType
    ensures p.orderNumber == Patch(r.orderNumber, o.orderNumber)
    ensures p.userId == Patch(r.userId, o.userId)
    ensures p.table == PatchText(r.table, o.table) && p.notes == PatchText(r.notes, o.notes)
    ensures p.subtotal == Patch(r.subtotal, o.subtotal) && p.tax == Patch(r.tax, o.tax)
    ensures p.discount == Patch(r.discount, o.discount) && p.total == Patch(r.total, o.total)
    ensures AmountsValid(o) ==> AmountsValid(p)
  {
    Order(
      Patch(r.orderNumber, o.orderNumber),
      Patch(r.userId, o.userId),
      PatchText(r.table, o.table),
      if r.orderType.Given? then ParseOrderType(r.orderType.value).value else o.orderType,
      if r.status.Given? then ParseStatus(r.status.value).value else o.status,
      Patch(r.subtotal, o.subtotal),
      Patch(r.tax, o.tax),
      Patch(r.discount, o.discount),
      Patch(r.total, o.total),
      PatchText(r.notes, o.notes))
  }

  /** An update that sends nothing leaves the order as it was. */
  lemma EmptyPatchKeepsOrder(o: Order)
    ensures PatchOrder(o, OrderRequest(Absent, Absent, Absent, Absent, Absent, Absent, Absent, Absent, Absent, Absent)) == o
  {
  }

  // ----- Status update and cancel -----

  /** `updateStatus` on an existing order: `required|in:...` and nothing
      about the current status. */
  function SetStatus(o: Order, status: Param<string>): (r: Result<Order>)
    ensures r.Ok? <==> status.Given? && ParseStatus(status.value).Some?
    ensures r.Fail? ==> r.code == Unprocessable
    ensures r.Ok? ==> StatusName(r.value.status) == status.value && r.value == o.(status := r.value.status)
  {
    if status.Given? && ParseStatus(status.value).Some? then Ok(o.(status := ParseStatus(status.value).value))
    else Fail(Unprocessable)
  }

  /** Any of the five statuses can be set from any status, a terminal one
      included. */
  lemma {:induction false} SetStatusUnrestricted(o: Order, target: OrderStatus)
    ensures SetStatus(o, Given(StatusName(target))) == Ok(o.(status := target))
  {
    StatusNameParses(target);
  }

  /** `cancel` on an existing order: refused for a completed order,
      otherwise the status becomes cancelled whatever it was. */
  function CancelOrder(o: Order): (r: Result<Order>)
    ensures r.Fail? <==> o.status == Completed
    ensures r.Fail? ==> r.code == BadRequest
    ensures r.Ok? ==> r.value.status == Cancelled && r.value == o.(status := Cancelled)
  {
    if o.status == Completed then Fail(BadRequest) else Ok(o.(status := Cancelled))
  }

  /** Cancelling twice is the same as cancelling once. */
  lemma CancelIdempotent(o: Order)
    requires CancelOrder(o).Ok?
    ensures CancelOrder(CancelOrder(o).value) == CancelOrder(o)
  {
  }

  /** Once a generic status update has completed an order, cancel refuses it. */
  lemma {:induction false} CompletedCannotBeCancelled(o: Order)
    ensures CancelOrder(SetStatus(o, Given("completed")).value) == Fail(BadRequest)
  {
    assert SetStatus(o, Given("completed")).value.status == Completed;
  }

  // ----- Listing by status -----

  /** The rows of `orders` whose status is `s`. */
  function WithStatus(orders: map<int, Order>, s: OrderStatus): (r: map<int, Order>)
    ensures forall id :: id in r <==> id in orders && orders[id].status == s
    ensures forall id | id in r :: r[id] == orders[id]
  {
    map id | id in orders && orders[id].status == s :: orders[id]
  }

  /** Every order is listed under its own status, and under no other. */
  lemma StatusListingsDisjoint(orders: map<int, Order>, s: OrderStatus, t: OrderStatus)
    requires s != t
    ensures WithStatus(orders, s).Keys !! WithStatus(orders, t).Keys
    ensures forall id | id in orders :: id in WithStatus(orders, orders[id].status)
  {
  }

  /** The five status listings partition the table: their sizes add up to
      the number of orders. */
  lemma {:induction false} StatusListingsPartition(orders: map<int, Order>)
    ensures |WithStatus(orders, Pending)| + |WithStatus(orders, Preparing)| + |WithStatus(orders, Ready)|
            + |WithStatus(orders, Completed)| + |WithStatus(orders, Cancelled)| == |orders|
  {
    var a, b, c := WithStatus(orders, Pending), WithStatus(orders, Preparing), WithStatus(orders, Ready);
    var d, e := WithStatus(orders, Completed), WithStatus(orders, Cancelled);
    assert orders.Keys == a.Keys + b.Keys + c.Keys + d.Keys + e.Keys by {
      forall id | id in orders
        ensures id in a.Keys + b.Keys + c.Keys + d.Keys + e.Keys
      {
        match orders[id].status
        case Pending => assert id in a;
        case Preparing => assert id in b;
        case Ready => assert id in c;
        case Completed => assert id in d;
        case Cancelled => assert id in e;
      }
    }
    DisjointUnionSize(a.Keys, b.Keys);
    DisjointUnionSize(a.Keys + b.Keys, c.Keys);
    DisjointUnionSize(a.Keys + b.Keys + c.Keys, d.Keys);
    DisjointUnionSize(a.Keys + b.Keys + c.Keys + d.Keys, e.Keys);
    KeyCount(orders);
    KeyCount(a);
    KeyCount(b);
    KeyCount(c);
    KeyCount(d);
    KeyCount(e);
  }

  lemma DisjointUnionSize(x: set<int>, y: set<int>)
    requires x !! y
    ensures |x + y| == |x| + |y|
  {
  }

  lemma KeyCount(m: map<int, Order>)
    ensures |m| == |m.Keys|
  {
  }

  // ----- The controller over the orders table -----

  class OrderController {
    /** The orders table by primary key. */
    var orders: map<int, Order>
    /** The next auto-increment key. */
    var nextId: int
    /** The keys of the users table, read for `exists:users,id`. */
    const users: set<int>

    ghost predicate Valid()
      reads this
    {
      KeysBelow(orders, nextId) && forall id | id in orders :: AmountsValid(orders[id])
    }

    constructor (users: set<int>)
      ensures Valid() && orders == map[] && this.users == users
    {
      this.users := users;
      orders := map[];
      nextId := 1;
    }

    /** `store`: validate, then insert a row numbered `ORD-` and the
        upper-cased random token. */
    method Store(req: OrderRequest, random: string) returns (code: Code, id: int)
      requires Valid() && IsRandomToken(random)
      modifies this
      ensures Valid()
      ensures code == Created <==> ValidNewOrder(req, users)
      ensures code != Created ==> code == Unprocessable && orders == old(orders) && nextId == old(nextId)
      ensures code == Created ==>
        && id == old(nextId) && id !in old(orders) && nextId == id + 1
        && orders == old(orders)[id := NewOrder(req, OrderNumber(random))]
        && |orders[id].orderNumber| == 12
    {
      id := nextId;
      if !ValidNewOrder(req, users) {
        code := Unprocessable;
        return;
      }
      var number := OrderNumber(random);
      orders := orders[id := NewOrder(req, number)];
      nextId := nextId + 1;
      code := Created;
    }

    /** `show`. */
    function Show(id: int): (r: Result<Order>)
      reads this
      ensures r.Fail? <==> id !in orders
      ensures r.Fail? ==> r.code == NotFound
      ensures r.Ok? ==> r.value == orders[id]
    {
      if id in orders then Ok(orders[id]) else Fail(NotFound)
    }

    /** `update`: 404, then 422, then a partial write of the sent fields. */
    method Update(id: int, req: OrderRequest) returns (code: Code)
      requires Valid()
      modifies this
      ensures Valid() && nextId == old(nextId)
      ensures id !in old(orders) ==> code == NotFound && orders == old(orders)
      ensures id in old(orders) && !ValidOrderPatch(req, users) ==> code == Unprocessable && orders == old(orders)
      ensures id in old(orders) && ValidOrderPatch(req, users) ==>
        code == OK && orders == old(orders)[id := PatchOrder(old(orders)[id], req)]
    {
      if id !in orders {
        code := NotFound;
        return;
      }
      if !ValidOrderPatch(req, users) {
        code := Unprocessable;
        return;
      }
      orders := orders[id := PatchOrder(orders[id], req)];
      code := OK;
    }

    /** `updateStatus`. */
    method UpdateStatus(id: int, status: Param<string>) returns (code: Code)
      requires Valid()
      modifies this
      ensures Valid() && nextId == old(nextId)
      ensures id !in old(orders) ==> code == NotFound && orders == old(orders)
      ensures id in old(orders) ==>
        match SetStatus(old(orders)[id], status)
        case Ok(o) => code == OK && orders == old(orders)[id := o]
        case Fail(c) => code == c && orders == old(orders)
    {
      if id !in orders {
        code := NotFound;
        return;
      }
      var r := SetStatus(orders[id], status);
      if r.Fail? {
        code := r.code;
        return;
      }
      orders := orders[id := r.value];
      code := OK;
    }

    /** `cancel`. */
    method Cancel(id: int) returns (code: Code)
      requires Valid()
      modifies this
      ensures Valid() && nextId == old(nextId)
      ensures id !in old(orders) ==> code == NotFound && orders == old(orders)
      ensures id in old(orders) ==>
        match CancelOrder(old(orders)[id])
        case Ok(o) => code == OK && orders == old(orders)[id := o]
        case Fail(c) => code == c && orders == old(orders)
    {
      if id !in orders {
        code := NotFound;
        return;
      }
      match CancelOrder(orders[id]) {
        case Ok(o) =>
          orders := orders[id := o];
          code := OK;
        case Fail(c) =>
          code := c;
      }
    }

    /** `getByStatus`: 422 for a string outside the enum, otherwise the
        orders with that status. */
    function ByStatus(status: string): (r: Result<map<int, Order>>)
      reads this
      ensures r.Fail? <==> ParseStatus(status).None?
      ensures r.Fail? ==> r.code == Unprocessable
      ensures r.Ok? ==> r.value == WithStatus(orders, ParseStatus(status).value)
      ensures r.Ok? ==> forall id | id in r.value :: StatusName(r.value[id].status) == status
    {
      match ParseStatus(status)
      case Some(s) => Ok(WithStatus(orders, s))
      case None => Fail(Unprocessable)
    }
  }
}

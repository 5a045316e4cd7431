/** The order service: turns a fetched cart snapshot into a stored order, and
    reads and updates the order store. */
module Orders {
  import opened Common
  import Carts
  import OrderItems

  datatype OrderStatus = Pending | Confirmed | Preparing | Shipped | Delivered | Cancelled

  /** Order ids are generated by the store. */
  type OrderId = nat

  /** One order line: a copy of a cart line. */
  datatype OrderItem = OrderItem(
    productId: ProductId,
    productName: string,
    productUnit: string,
    quantity: int,
    price: Money)

  datatype Order = Order(
    id: OrderId,
    userId: UserId,
    items: seq<OrderItem>,
    status: OrderStatus,
    totalAmount: Money,
    shippingAddress: string)

  /** What the cart service returns for the caller's forwarded credential: a list
      of lines that may be null, and the cart's total amount. */
  datatype CartSnapshot = CartSnapshot(items: Option<seq<Carts.CartItem>>, totalAmount: Money)

  /** Copies one cart line into an order line. */
  function ToOrderItem(c: Carts.CartItem): OrderItem {
    OrderItem(c.productId, c.productName, c.productUnit, c.quantity, c.price)
  }

  /** Reads an order line back as the cart line it was copied from. */
  function ToCartItem(o: OrderItem): Carts.CartItem {
    Carts.CartItem(o.productId, o.productName, o.productUnit, o.quantity, o.price)
  }

  /** The order lines for a list of cart lines: one per cart line, in the same order. */
  function ToOrderItems(cs: seq<Carts.CartItem>): (r: seq<OrderItem>)
    ensures |r| == |cs|
    ensures forall i :: 0 <= i < |cs| ==> ToCartItem(r[i]) == cs[i]
  {
    if cs == [] then [] else [ToOrderItem(cs[0])] + ToOrderItems(cs[1..])
  }

  /** The order line entity's validation: every quantity is positive. */
  predicate PositiveQuantities(cs: seq<Carts.CartItem>) {
    forall i :: 0 <= i < |cs| ==> cs[i].quantity > 0
  }

  /** The sum of price times quantity over order lines. */
  ghost function LinesTotal(items: seq<OrderItem>): Money {
    if items == [] then 0 else LinesTotal(items[..|items| - 1]) + items[|items| - 1].price * items[|items| - 1].quantity
  }

  /** The order lines add up to the cart's total amount. */
  lemma {:induction false} CopyKeepsTotal(cs: seq<Carts.CartItem>)
    ensures LinesTotal(ToOrderItems(cs)) == Carts.TotalAmount(cs)
  {
    if cs != [] {
      var init := cs[..|cs| - 1];
      var r := ToOrderItems(cs);
      CopyKeepsTotal(init);
      var ri := ToOrderItems(init);
      assert r[..|r| - 1] == ri by {
        forall i | 0 <= i < |ri| ensures r[i] == ri[i] {
          assert ToCartItem(r[i]) == cs[i] == init[i] == ToCartItem(ri[i]);
        }
      }
      assert ToCartItem(r[|r| - 1]) == cs[|cs| - 1];
    }
  }

  /** Every stored order is stored under its own id. */
  ghost predicate Keyed(orders: map<OrderId, Order>) {
    forall id :: id in orders ==> orders[id].id == id
  }

  /** The repository's findByStatus. */
  function OrdersWithStatus(orders: map<OrderId, Order>, status: OrderStatus): set<Order> {
    set id | id in orders && orders[id].status == status :: orders[id]
  }

  /** The repository's findByUserId, without paging. */
  function OrdersOfUser(orders: map<OrderId, Order>, userId: UserId): set<Order> {
    set id | id in orders && orders[id].userId == userId :: orders[id]
  }

  /** The order store after setting one order's status. */
  function WithStatus(orders: map<OrderId, Order>, orderId: OrderId, status: OrderStatus): map<OrderId, Order>
    requires orderId in orders
  {
    orders[orderId := orders[orderId].(status := status)]
  }

  /** Each stored order is listed under exactly one status: its own. */
  lemma StatusPartition(orders: map<OrderId, Order>, id: OrderId, status: OrderStatus)
    requires Keyed(orders) && id in orders
    ensures orders[id] in OrdersWithStatus(orders, status) <==> orders[id].status == status
  {
  }

  /** Users' order lists never share an order. */
  lemma UserOrdersDisjoint(orders: map<OrderId, Order>, u: UserId, v: UserId)
    requires u != v
    ensures OrdersOfUser(orders, u) * OrdersOfUser(orders, v) == {}
  {
  }

  /** After a status change the order is listed under the new status only, and
      every other order is listed where it was. */
  lemma WithStatusMoves(orders: map<OrderId, Order>, orderId: OrderId, status: OrderStatus, other: OrderId, s: OrderStatus)
    requires Keyed(orders) && orderId in orders && other in orders && other != orderId
    ensures var after := WithStatus(orders, orderId, status);
      Keyed(after) &&
      (after[orderId] in OrdersWithStatus(after, s) <==> s == status) &&
      (after[other] in OrdersWithStatus(after, s) <==> orders[other] in OrdersWithStatus(orders, s))
  {
    var after := WithStatus(orders, orderId, status);
    StatusPartition(after, orderId, s);
    StatusPartition(after, other, s);
    StatusPartition(orders, other, s);
  }

  class OrderService {
    /** The order store. */
    var orders: map<OrderId, Order>
    /** The id the store gives the next order it saves. */
    var nextId: OrderId

    ghost predicate Valid()
      reads this
    {
      Keyed(orders) && forall id :: id in orders ==> id < nextId
    }

    constructor ()
      ensures Valid() && orders == map[]
    {
      orders := map[];
      nextId := 0;
    }

    /** Places an order from the snapshot of the caller's cart: fails on a null or
        empty line list, and at the save when a line's quantity is not positive;
        otherwise saves one new PENDING order copying the lines, the cart's total
        and the shipping address, and changes nothing else. */
    method PlaceOrder(userId: UserId, shippingAddress: string, cart: CartSnapshot) returns (r: Result<Order>)
      requires Valid()
      modifies this
      ensures Valid()
      ensures (cart.items.None? || cart.items.value == []) ==> r == Err(CartEmpty)
      ensures r.Ok? <==> (cart.items.Some? && cart.items.value != [] && PositiveQuantities(cart.items.value))
      ensures (cart.items.Some? && cart.items.value != [] && !PositiveQuantities(cart.items.value)) ==>
        r == Err(InvalidOrderLine)
      ensures r.Err? ==> orders == old(orders) && nextId == old(nextId)
      ensures r.Ok? ==>
        r.value.id !in old(orders) && orders == old(orders)[r.value.id := r.value] &&
        r.value.userId == userId && r.value.shippingAddress == shippingAddress &&
        r.value.totalAmount == cart.totalAmount && r.value.status == Pending &&
        r.value.items == ToOrderItems(cart.items.value)
    {
      if cart.items.None? || cart.items.value == [] {
        return Err(CartEmpty);
      }
      var order := Order(nextId, userId, [], Pending, cart.totalAmount, shippingAddress);
      order := order.(items := ToOrderItems(cart.items.value));
      if !PositiveQuantities(cart.items.value) {
        return Err(InvalidOrderLine);
      }
      orders := orders[nextId := order];
      nextId := nextId + 1;
      r := Ok(order);
    }

    /** The caller's orders, without paging. */
    method GetUserOrders(userId: UserId) returns (r: set<Order>)
      ensures forall o :: o in r ==> o.userId == userId && o in orders.Values
      ensures forall id :: id in orders && orders[id].userId == userId ==> orders[id] in r
    {
      r := OrdersOfUser(orders, userId);
    }

    /** The order with this id if the caller owns it; a foreign order gives the
        same failure as a missing one. */
    method GetOrderById(orderId: OrderId, userId: UserId) returns (r: Result<Order>)
      ensures r.Ok? <==> orderId in orders && orders[orderId].userId == userId
      ensures r.Ok? ==> r.value == orders[orderId]
      ensures r.Err? ==> r.error == OrderNotFound
    {
      if orderId !in orders {
        return Err(OrderNotFound);
      }
      var order := orders[orderId];
      if order.userId != userId {
        return Err(OrderNotFound);
      }
      r := Ok(order);
    }

    /** Overwrites the status of an order with any status, with no transition
        check; only a missing id fails. */
    method UpdateOrderStatus(orderId: OrderId, status: OrderStatus) returns (r: Result<Order>)
      requires Valid()
      modifies this
      ensures Valid()
      ensures r.Err? <==> orderId !in old(orders)
      ensures r.Err? ==> r.error == OrderNotFound && orders == old(orders)
      ensures r.Ok? ==> r.value == old(orders)[orderId].(status := status) && orders == WithStatus(old(orders), orderId, status)
      ensures nextId == old(nextId)
    {
      if orderId !in orders {
        return Err(OrderNotFound);
      }
      var order := orders[orderId].(status := status);
      orders := orders[orderId := order];
      r := Ok(order);
    }

    /** Every stored order with this status, across all users. */
    method GetOrdersByStatus(status: OrderStatus) returns (r: set<Order>)
      ensures forall o :: o in r ==> o.status == status && o in orders.Values
      ensures forall id :: id in orders && orders[id].status == status ==> orders[id] in r
    {
      r := OrdersWithStatus(orders, status);
    }
  }

  /** Builds the response line for an order line; its total is price times quantity.
      The line's generated id is not modelled. */
  method ToItemResponse(item: OrderItem) returns (r: OrderItems.OrderItemResponse)
    ensures fresh(r)
    ensures r.productId == Some(item.productId) && r.productName == Some(item.productName)
    ensures r.productUnit == Some(item.productUnit)
    ensures r.quantity == Some(item.quantity) && r.price == Some(item.price)
    ensures r.totalPrice == Some(item.price * item.quantity)
  {
    r := new OrderItems.OrderItemResponse(None, Some(item.productId), Some(item.productName),
                                          Some(item.productUnit), item.quantity, item.price);
  }

  /** Two cart lines, 2 x 3.50 and 1 x 10.00, become an order of 17.00 whose lines
      total 7.00 and 10.00. */
  method TwoLineOrder(service: OrderService)
    requires service.Valid()
    modifies service
  {
    var lines := [Carts.CartItem(1, "Apples", "kg", 2, 350), Carts.CartItem(2, "Coffee", "pack", 1, 1000)];
    Carts.TotalSingle(lines[0]);
    Carts.TotalAppend([lines[0]], [lines[1]]);
    Carts.TotalSingle(lines[1]);
    assert [lines[0]] + [lines[1]] == lines;
    var r := service.PlaceOrder("alice", "1 Main St", CartSnapshot(Some(lines), 1700));
    assert r.Ok? && r.value.totalAmount == Carts.TotalAmount(lines);
    var first := ToItemResponse(r.value.items[0]);
    var second := ToItemResponse(r.value.items[1]);
    assert first.totalPrice == Some(700) && second.totalPrice == Some(1000);
  }

  /** Status changes are unchecked: a delivered order can go back to pending. */
  method DeliveredBackToPending(service: OrderService)
    requires service.Valid()
    modifies service
  {
    var placed := service.PlaceOrder("bob", "2 High St", CartSnapshot(Some([Carts.CartItem(7, "Bread", "loaf", 1, 250)]), 250));
    var id := placed.value.id;
    var delivered := service.UpdateOrderStatus(id, Delivered);
    var reverted := service.UpdateOrderStatus(id, Pending);
    assert reverted.Ok? && reverted.value.status == Pending;
  }

  /** Placing an order from a cart snapshot whose total is the sum of its lines
      gives an order whose total is the sum of its own lines. */
  lemma PlacedTotalMatchesLines(cs: seq<Carts.CartItem>, order: Order)
    requires order.items == ToOrderItems(cs)
    requires order.totalAmount == Carts.TotalAmount(cs)
    ensures order.totalAmount == LinesTotal(order.items)
  {
    CopyKeepsTotal(cs);
  }
}

/** `OrderService`: checkout turns the user's cart into an order with frozen unit
    prices and a total, then empties the cart; two reads list a user's orders and
    fetch one order after checking its owner. */
module OrderService {
  import opened Wrappers
  import opened JavaInt
  import opened Entities
  import opened Tables
  import opened Errors
  import opened Store
  import opened Dtos

  /** The current price of a stored product. */
  function PriceOf(products: seq<Product>, productId: nat): real
    requires productId in ProductIds(products)
  {
    ProductWithId(products, productId).price
  }

  /** What a cart is worth at current prices: the sum over its lines of unit price
      × quantity (a reference definition, independent of how checkout loops). */
  function CartValue(items: seq<CartItem>, products: seq<Product>): real
    requires LinesResolve(items, products)
    decreases |items|
  {
    if items == [] then 0.0
    else
      var last := items[|items| - 1];
      CartValue(items[..|items| - 1], products) + PriceOf(products, last.productId) * last.quantity as real
  }

  /** The order line checkout builds from one cart line: same product and quantity,
      today's price as the frozen unit price, and the given fresh id. */
  function FreezeLine(line: CartItem, products: seq<Product>, id: nat): (r: OrderItem)
    requires line.productId in ProductIds(products)
    ensures r.productId == line.productId && r.quantity == line.quantity && r.id == id
    ensures r.price == PriceOf(products, line.productId)
    ensures LineAmount(r) == PriceOf(products, line.productId) * line.quantity as real
  {
    OrderItem(id, line.productId, line.quantity, PriceOf(products, line.productId))
  }

  /** A prefix of resolving cart lines resolves. */
  lemma PrefixResolves(items: seq<CartItem>, products: seq<Product>, n: nat)
    requires LinesResolve(items, products) && n <= |items|
    ensures LinesResolve(items[..n], products)
  {
    forall k | 0 <= k < n ensures items[..n][k].productId in ProductIds(products) {
      assert items[..n][k] == items[k];
    }
  }

  /** The order lines checkout builds from cart lines: one per cart line, in order,
      with consecutive fresh ids from `firstId` (built front to back, as the loop
      does). */
  function Frozen(items: seq<CartItem>, products: seq<Product>, firstId: nat): (r: seq<OrderItem>)
    requires LinesResolve(items, products)
    ensures |r| == |items|
    decreases |items|
  {
    if items == [] then []
    else
      var n := |items| - 1;
      PrefixResolves(items, products, n);
      Frozen(items[..n], products, firstId) + [FreezeLine(items[n], products, firstId + n)]
  }

  /** Each frozen line is its cart line frozen with the id `firstId` + its position. */
  lemma {:induction false} FrozenLines(items: seq<CartItem>, products: seq<Product>, firstId: nat)
    requires LinesResolve(items, products)
    ensures var f := Frozen(items, products, firstId);
      forall i :: 0 <= i < |items| ==> f[i] == FreezeLine(items[i], products, firstId + i)
    decreases |items|
  {
    if items != [] {
      var n := |items| - 1;
      PrefixResolves(items, products, n);
      FrozenLines(items[..n], products, firstId);
      var f := Frozen(items, products, firstId);
      forall i | 0 <= i < |items| ensures f[i] == FreezeLine(items[i], products, firstId + i) {
        if i < n {
          assert f[i] == Frozen(items[..n], products, firstId)[i];
          assert items[..n][i] == items[i];
        }
      }
    }
  }

  /** Frozen lines name the same, stored, products as the cart lines. */
  lemma FrozenResolves(items: seq<CartItem>, products: seq<Product>, firstId: nat)
    requires LinesResolve(items, products)
    ensures OrderLinesResolve(Frozen(items, products, firstId), products)
  {
    FrozenLines(items, products, firstId);
    var f := Frozen(items, products, firstId);
    forall k | 0 <= k < |f| ensures f[k].productId in ProductIds(products) {
      assert f[k].productId == items[k].productId;
    }
  }

  /** An order's own total (the sum of its frozen lines) is the cart's value at
      checkout time. */
  lemma {:induction false} FrozenTotal(items: seq<CartItem>, products: seq<Product>, firstId: nat)
    requires LinesResolve(items, products)
    ensures OrderTotal(Frozen(items, products, firstId)) == CartValue(items, products)
    decreases |items|
  {
    if items != [] {
      var n := |items| - 1;
      PrefixResolves(items, products, n);
      FrozenTotal(items[..n], products, firstId);
      var f := Frozen(items, products, firstId);
      assert f[..n] == Frozen(items[..n], products, firstId);
    }
  }

  /** Pricing one more cart line extends the frozen lines by that line and the
      value by its amount. */
  lemma PriceStep(lines: seq<CartItem>, products: seq<Product>, firstId: nat, i: nat)
    requires LinesResolve(lines, products) && i < |lines|
    ensures LinesResolve(lines[..i], products) && LinesResolve(lines[..i + 1], products)
    ensures Frozen(lines[..i + 1], products, firstId) ==
      Frozen(lines[..i], products, firstId) + [FreezeLine(lines[i], products, firstId + i)]
    ensures CartValue(lines[..i + 1], products) ==
      CartValue(lines[..i], products) + PriceOf(products, lines[i].productId) * lines[i].quantity as real
  {
    PrefixResolves(lines, products, i);
    PrefixResolves(lines, products, i + 1);
    assert lines[..i + 1][..i] == lines[..i];
  }

  /** The checkout loop: walk the cart lines, build one order line per cart line and
      accumulate `price × quantity` into the total. */
  method PriceLines(lines: seq<CartItem>, products: seq<Product>, firstId: nat)
    returns (items: seq<OrderItem>, total: real)
    requires LinesResolve(lines, products)
    ensures items == Frozen(lines, products, firstId)
    ensures total == CartValue(lines, products)
    ensures total == OrderTotal(items)
  {
    items, total := [], 0.0;
    for i := 0 to |lines|
      invariant LinesResolve(lines[..i], products)
      invariant items == Frozen(lines[..i], products, firstId)
      invariant total == CartValue(lines[..i], products)
    {
      var line := lines[i];
      var price := PriceOf(products, line.productId);
      var itemTotal := price * line.quantity as real;
      PriceStep(lines, products, firstId, i);
      items := items + [OrderItem(firstId + i, line.productId, line.quantity, price)];
      total := total + itemTotal;
    }
    assert lines[..|lines|] == lines;
    FrozenTotal(lines, products, firstId);
  }

  /** `mapToOrderResponse`: the order's id, total and lines with their frozen prices. */
  function MapToOrderResponse(order: Order, products: seq<Product>): (r: OrderResponse)
    requires OrderLinesResolve(order.items, products)
    ensures r.id == order.id && r.totalAmount == order.totalAmount && |r.items| == |order.items|
    ensures forall i :: 0 <= i < |order.items| ==>
      r.items[i].id == order.items[i].id && r.items[i].quantity == order.items[i].quantity &&
      r.items[i].price == order.items[i].price && r.items[i].product.id == order.items[i].productId
  {
    OrderResponse(order.id, order.totalAmount, seq(|order.items|, i requires 0 <= i < |order.items| =>
      OrderItemResponse(order.items[i].id, order.items[i].quantity, order.items[i].price,
        ToProductResponse(ProductWithId(products, order.items[i].productId)))))
  }

  /** The order a successful checkout of `items` by `uid` saves, with id `orderId`:
      its lines name stored products, its total is both its own lines' total and
      the cart's value, and its lines take the ids after `orderId`. */
  function CheckedOutOrder(items: seq<CartItem>, products: seq<Product>, uid: string, orderId: nat): (r: Order)
    requires LinesResolve(items, products)
    ensures r.id == orderId && r.owner == Some(uid) && |r.items| == |items|
    ensures OrderLinesResolve(r.items, products)
    ensures r.totalAmount == OrderTotal(r.items) == CartValue(items, products)
    ensures forall k :: 0 <= k < |r.items| ==> r.items[k].id == orderId + 1 + k
  {
    FrozenTotal(items, products, orderId + 1);
    FrozenResolves(items, products, orderId + 1);
    FrozenLines(items, products, orderId + 1);
    Order(orderId, Some(uid), CartValue(items, products), Frozen(items, products, orderId + 1))
  }

  /** Appending a sound order with a fresh id (at least the old counter) to sound
      orders keeps them sound, with distinct ids, under a larger counter. */
  lemma AppendOrderKeeps(orders: seq<Order>, products: seq<Product>, order: Order, n: nat, n': nat)
    requires OrdersResolve(orders, products) && OrderTotalsMatch(orders) && UniqueOrderIds(orders)
    requires OrderIdsBelow(orders, n) && n <= n'
    requires OrderLinesResolve(order.items, products) && order.totalAmount == OrderTotal(order.items)
    requires n <= order.id < n' && forall k :: 0 <= k < |order.items| ==> order.items[k].id < n'
    ensures OrdersResolve(orders + [order], products) && OrderTotalsMatch(orders + [order])
    ensures UniqueOrderIds(orders + [order]) && OrderIdsBelow(orders + [order], n')
  {
    var orders' := orders + [order];
    forall i, j | 0 <= i < j < |orders'| ensures orders'[i].id != orders'[j].id {
      assert orders'[i] == orders[i];
      if j < |orders| {
        assert orders'[j] == orders[j];
      }
    }
    forall i | 0 <= i < |orders'|
      ensures OrderLinesResolve(orders'[i].items, products)
      ensures orders'[i].totalAmount == OrderTotal(orders'[i].items)
      ensures orders'[i].id < n' && forall k :: 0 <= k < |orders'[i].items| ==> orders'[i].items[k].id < n'
    {
      if i < |orders| { assert orders'[i] == orders[i]; }
    }
  }

  /** Emptying one cart keeps the carts' invariants, under a larger counter too. */
  lemma EmptyCartKeeps(carts: seq<Cart>, users: map<string, User>, products: seq<Product>, k: nat, n: nat, n': nat)
    requires CartsOwned(carts, users) && OneCartPerUser(carts) && CartLinesUnique(carts) && CartsResolve(carts, products)
    requires UniqueCartIds(carts) && CartLineIdsUnique(carts)
    requires CartIdsBelow(carts, n) && n <= n' && k < |carts|
    ensures var carts' := carts[k := carts[k].(items := [])];
      CartsOwned(carts', users) && OneCartPerUser(carts') && CartLinesUnique(carts') &&
      CartsResolve(carts', products) && UniqueCartIds(carts') && CartLineIdsUnique(carts') && CartIdsBelow(carts', n')
  {
    var carts' := carts[k := carts[k].(items := [])];
    forall i, j | 0 <= i < j < |carts'| ensures carts'[i].owner != carts'[j].owner && carts'[i].id != carts'[j].id {
      assert carts'[i].owner == carts[i].owner && carts'[j].owner == carts[j].owner;
      assert carts'[i].id == carts[i].id && carts'[j].id == carts[j].id;
    }
    forall i | 0 <= i < |carts'|
      ensures carts'[i].owner in users && UniqueProducts(carts'[i].items) && UniqueLineIds(carts'[i].items)
      ensures LinesResolve(carts'[i].items, products) && carts'[i].id < n'
      ensures forall m :: 0 <= m < |carts'[i].items| ==> carts'[i].items[m].id < n'
    {
      if i != k { assert carts'[i] == carts[i]; }
    }
  }

  /** A successful checkout keeps the store consistent. */
  lemma CheckoutKeepsConsistent(users: map<string, User>, categories: seq<Category>, products: seq<Product>,
                                carts: seq<Cart>, orders: seq<Order>, nextId: nat, uid: string, k: nat,
                                carts': seq<Cart>, orders': seq<Order>, nextId': nat)
    requires Consistent(users, categories, products, carts, orders, nextId)
    requires k < |carts| && LinesResolve(carts[k].items, products)
    requires carts' == carts[k := carts[k].(items := [])]
    requires orders' == orders + [CheckedOutOrder(carts[k].items, products, uid, nextId)]
    requires nextId' == nextId + 1 + |carts[k].items|
    ensures Consistent(users, categories, products, carts', orders', nextId')
  {
    var items := carts[k].items;
    AppendOrderKeeps(orders, products, CheckedOutOrder(items, products, uid, nextId), nextId, nextId');
    EmptyCartKeeps(carts, users, products, k, nextId, nextId');
  }

  /** `checkout` (transactional): the order is saved and the cart emptied, or, on any
      error, nothing changes. */
  method Checkout(db: Database, uid: string) returns (r: Result<OrderResponse, ServiceError>)
    requires db.Valid()
    modifies db
    ensures db.Valid()
    ensures db.users == old(db.users) && db.categories == old(db.categories) && db.products == old(db.products)
    ensures uid !in old(db.users) ==> r == Failure(UserNotFound) && unchanged(db)
    ensures uid in old(db.users) && FindUserCart(old(db.carts), uid).None? ==>
      r == Failure(CartIsEmpty) && unchanged(db)
    ensures uid in old(db.users) && FindUserCart(old(db.carts), uid).Some? ==>
      var k := FindUserCart(old(db.carts), uid).value;
      var items := old(db.carts)[k].items;
      (items == [] ==> r == Failure(EmptyCartCheckout) && unchanged(db)) &&
      (items != [] ==>
        var order := CheckedOutOrder(items, db.products, uid, old(db.nextId));
        db.orders == old(db.orders) + [order] &&
        db.carts == old(db.carts)[k := old(db.carts)[k].(items := [])] &&
        db.nextId == old(db.nextId) + 1 + |items| &&
        r == Success(MapToOrderResponse(order, db.products)))
  {
    if uid !in db.users {
      return Failure(UserNotFound);
    }
    var found := FindUserCart(db.carts, uid);
    if found.None? {
      return Failure(CartIsEmpty);
    }
    var cart := db.carts[found.value];
    if |cart.items| == 0 {
      return Failure(EmptyCartCheckout);
    }
    r := PlaceOrder(db, uid, found.value);
  }

  /** Checkout's success path for the non-empty cart at index `k`: price the lines,
      save the order, then clear the cart and save it. */
  method PlaceOrder(db: Database, uid: string, k: nat) returns (r: Result<OrderResponse, ServiceError>)
    requires db.Valid() && k < |db.carts|
    modifies db
    ensures db.Valid()
    ensures db.users == old(db.users) && db.categories == old(db.categories) && db.products == old(db.products)
    ensures var items := old(db.carts)[k].items;
      var order := CheckedOutOrder(items, db.products, uid, old(db.nextId));
      db.orders == old(db.orders) + [order] &&
      db.carts == old(db.carts)[k := old(db.carts)[k].(items := [])] &&
      db.nextId == old(db.nextId) + 1 + |items| &&
      r == Success(MapToOrderResponse(order, db.products))
  {
    var carts, products, orderId := db.carts, db.products, db.nextId;
    var cart := carts[k];
    assert LinesResolve(cart.items, products) by {
      assert CartsResolve(carts, products);
    }
    var items, total := PriceLines(cart.items, products, orderId + 1);
    var order := Order(orderId, Some(uid), total, items);
    assert order == CheckedOutOrder(cart.items, products, uid, orderId);
    r := Success(MapToOrderResponse(order, products));
    var orders', carts', nextId' := db.orders + [order], carts[k := cart.(items := [])], orderId + 1 + |items|;
    CheckoutKeepsConsistent(db.users, db.categories, products, carts, db.orders, orderId, uid, k, carts', orders', nextId');
    SaveCheckout(db, orders', carts', nextId');
  }

  /** `orderRepository.save(order)` then `cartRepository.save(cart)`: store the new
      orders, carts and counter together. */
  method SaveCheckout(db: Database, orders: seq<Order>, carts: seq<Cart>, nextId: nat)
    requires Consistent(db.users, db.categories, db.products, carts, orders, nextId)
    modifies db
    ensures db.Valid()
    ensures db.users == old(db.users) && db.categories == old(db.categories) && db.products == old(db.products)
    ensures db.orders == orders && db.carts == carts && db.nextId == nextId
  {
    db.orders, db.carts, db.nextId := orders, carts, nextId;
  }

  /** `orderRepository.findByUser`: the orders whose owner is `uid`. The query has
      no ORDER BY; the model lists them in insertion order. */
  function OwnedBy(orders: seq<Order>, uid: string): (r: seq<Order>)
    ensures forall o :: o in r <==> o in orders && o.owner == Some(uid)
    ensures |r| <= |orders|
  {
    if orders == [] then []
    else (if orders[0].owner == Some(uid) then [orders[0]] else []) + OwnedBy(orders[1..], uid)
  }

  /** In the model's insertion order, the owned orders of a concatenation are
      those of its first part followed by those of its second. */
  lemma {:induction false} OwnedByAppend(a: seq<Order>, b: seq<Order>, uid: string)
    ensures OwnedBy(a + b, uid) == OwnedBy(a, uid) + OwnedBy(b, uid)
  {
    if a != [] {
      var head := if a[0].owner == Some(uid) then [a[0]] else [];
      assert (a + b)[0] == a[0] && (a + b)[1..] == a[1..] + b;
      OwnedByAppend(a[1..], b, uid);
      calc {
        OwnedBy(a + b, uid);
        head + OwnedBy(a[1..] + b, uid);
        head + (OwnedBy(a[1..], uid) + OwnedBy(b, uid));
        (head + OwnedBy(a[1..], uid)) + OwnedBy(b, uid);
      }
    } else {
      assert a + b == b;
    }
  }

  /** Each owned order is listed as often as it is stored (once, for distinct rows),
      and no other order is listed. */
  lemma {:induction false} OwnedByCounts(orders: seq<Order>, uid: string, o: Order)
    ensures multiset(OwnedBy(orders, uid))[o] == if o.owner == Some(uid) then multiset(orders)[o] else 0
  {
    if orders != [] {
      assert orders == [orders[0]] + orders[1..];
      OwnedByCounts(orders[1..], uid, o);
    }
  }

  /** A single order is listed exactly when the user owns it. */
  lemma OwnedBySingle(o: Order, uid: string)
    ensures OwnedBy([o], uid) == if o.owner == Some(uid) then [o] else []
  {
    assert [o][1..] == [];
  }

  /** `getUserOrders`: an unknown user fails; otherwise one response per owned order. */
  function GetUserOrders(users: map<string, User>, orders: seq<Order>, products: seq<Product>, uid: string)
    : (r: Result<seq<OrderResponse>, ServiceError>)
    requires OrdersResolve(orders, products)
    ensures r.Failure? <==> uid !in users
    ensures r.Failure? ==> r.error == UserNotFound
    ensures r.Success? ==> var owned := OwnedBy(orders, uid);
      |r.value| == |owned| && forall i :: 0 <= i < |owned| ==> r.value[i] == MapToOrderResponse(owned[i], products)
  {
    if uid !in users then Failure(UserNotFound)
    else
      var owned := OwnedBy(orders, uid);
      Success(seq(|owned|, i requires 0 <= i < |owned| => MapToOrderResponse(owned[i], products)))
  }

  /** With order ids a primary key, `findById` finds THE order with the id, whichever
      row it is stored in. */
  lemma FindOrderIsTheRow(orders: seq<Order>, orderId: nat, j: nat)
    requires UniqueOrderIds(orders) && j < |orders| && orders[j].id == orderId
    ensures FindOrder(orders, orderId) == Some(j)
  {
  }

  /** `getOrderById`: the order, but only for its owner; an absent order, an order
      without owner and another user's order all fail with the same error. */
  function GetOrderById(orders: seq<Order>, products: seq<Product>, uid: string, orderId: nat)
    : (r: Result<OrderResponse, ServiceError>)
    requires OrdersResolve(orders, products)
    ensures r.Failure? ==> r.error == OrderNotFound
    ensures r.Success? <==> FindOrder(orders, orderId).Some? && orders[FindOrder(orders, orderId).value].owner == Some(uid)
    ensures r.Success? ==> r.value == MapToOrderResponse(orders[FindOrder(orders, orderId).value], products)
  {
    match FindOrder(orders, orderId)
    case None => Failure(OrderNotFound)
    case Some(k) =>
      if orders[k].owner.None? || orders[k].owner.value != uid then Failure(OrderNotFound)
      else Success(MapToOrderResponse(orders[k], products))
  }
}

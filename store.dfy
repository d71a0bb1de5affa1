/** The relational store: one table per repository, held by a `Database` object
    whose fields the services update in place. Users are keyed by uid; the other
    tables are sequences of rows in insertion (and so id) order. One counter hands
    out fresh ids for every table. */
module Store {
  import opened Wrappers
  import opened Entities
  import opened Tables

  /** Each user row is stored under its own uid. */
  ghost predicate UsersKeyed(users: map<string, User>) {
    forall u :: u in users ==> users[u].uid == u
  }

  /** `categoryRepository.findByName` can never see two rows. */
  ghost predicate UniqueCategoryNames(categories: seq<Category>) {
    forall i, j :: 0 <= i < j < |categories| ==> categories[i].name != categories[j].name
  }

  ghost predicate UniqueProductIds(products: seq<Product>) {
    forall i, j :: 0 <= i < j < |products| ==> products[i].id != products[j].id
  }

  /** Every product's category is a stored category row. */
  ghost predicate CategoriesStored(products: seq<Product>, categories: seq<Category>) {
    forall i :: 0 <= i < |products| ==> products[i].category in categories
  }

  /** Every cart belongs to a stored user. */
  ghost predicate CartsOwned(carts: seq<Cart>, users: map<string, User>) {
    forall i :: 0 <= i < |carts| ==> carts[i].owner in users
  }

  /** At most one cart per user, so `cartRepository.findByUser` is well defined. */
  ghost predicate OneCartPerUser(carts: seq<Cart>) {
    forall i, j :: 0 <= i < j < |carts| ==> carts[i].owner != carts[j].owner
  }

  /** No product appears on two lines of one cart. */
  ghost predicate UniqueProducts(items: seq<CartItem>) {
    forall i, j :: 0 <= i < j < |items| ==> items[i].productId != items[j].productId
  }

  ghost predicate CartLinesUnique(carts: seq<Cart>) {
    forall i :: 0 <= i < |carts| ==> UniqueProducts(carts[i].items)
  }

  /** Primary key of the carts table. */
  ghost predicate UniqueCartIds(carts: seq<Cart>) {
    forall i, j :: 0 <= i < j < |carts| ==> carts[i].id != carts[j].id
  }

  /** No two lines of one cart share an id, so a line id names one line. */
  ghost predicate UniqueLineIds(items: seq<CartItem>) {
    forall i, j :: 0 <= i < j < |items| ==> items[i].id != items[j].id
  }

  ghost predicate CartLineIdsUnique(carts: seq<Cart>) {
    forall i :: 0 <= i < |carts| ==> UniqueLineIds(carts[i].items)
  }

  /** Primary key of the orders table. */
  ghost predicate UniqueOrderIds(orders: seq<Order>) {
    forall i, j :: 0 <= i < j < |orders| ==> orders[i].id != orders[j].id
  }

  /** Foreign key: every cart line names a stored product. */
  ghost predicate LinesResolve(items: seq<CartItem>, products: seq<Product>) {
    forall k :: 0 <= k < |items| ==> items[k].productId in ProductIds(products)
  }

  ghost predicate CartsResolve(carts: seq<Cart>, products: seq<Product>) {
    forall i :: 0 <= i < |carts| ==> LinesResolve(carts[i].items, products)
  }

  /** Foreign key: every order line names a stored product. */
  ghost predicate OrderLinesResolve(items: seq<OrderItem>, products: seq<Product>) {
    forall k :: 0 <= k < |items| ==> items[k].productId in ProductIds(products)
  }

  ghost predicate OrdersResolve(orders: seq<Order>, products: seq<Product>) {
    forall i :: 0 <= i < |orders| ==> OrderLinesResolve(orders[i].items, products)
  }

  /** Every order's total is the sum of its own lines' price × quantity. */
  ghost predicate OrderTotalsMatch(orders: seq<Order>) {
    forall i :: 0 <= i < |orders| ==> orders[i].totalAmount == OrderTotal(orders[i].items)
  }

  ghost predicate CartIdsBelow(carts: seq<Cart>, n: nat) {
    forall i :: 0 <= i < |carts| ==> carts[i].id < n && forall k :: 0 <= k < |carts[i].items| ==> carts[i].items[k].id < n
  }

  ghost predicate OrderIdsBelow(orders: seq<Order>, n: nat) {
    forall i :: 0 <= i < |orders| ==> orders[i].id < n && forall k :: 0 <= k < |orders[i].items| ==> orders[i].items[k].id < n
  }

  /** Every id handed out so far is below the counter, so the next one is fresh. */
  ghost predicate IdsBelow(categories: seq<Category>, products: seq<Product>, carts: seq<Cart>, orders: seq<Order>, n: nat) {
    (forall i :: 0 <= i < |categories| ==> categories[i].id < n) &&
    (forall i :: 0 <= i < |products| ==> products[i].id < n) &&
    CartIdsBelow(carts, n) && OrderIdsBelow(orders, n)
  }

  ghost predicate Consistent(users: map<string, User>, categories: seq<Category>, products: seq<Product>,
                             carts: seq<Cart>, orders: seq<Order>, nextId: nat)
  {
    UsersKeyed(users) &&
    UniqueCategoryNames(categories) && UniqueProductIds(products) && CategoriesStored(products, categories) &&
    CartsOwned(carts, users) && OneCartPerUser(carts) && CartLinesUnique(carts) && CartsResolve(carts, products) &&
    UniqueCartIds(carts) && CartLineIdsUnique(carts) && UniqueOrderIds(orders) &&
    OrdersResolve(orders, products) && OrderTotalsMatch(orders) &&
    IdsBelow(categories, products, carts, orders, nextId)
  }

  /** The repositories' shared state. */
  class Database {
    var users: map<string, User>
    var categories: seq<Category>
    var products: seq<Product>
    var carts: seq<Cart>
    var orders: seq<Order>
    var nextId: nat

    ghost predicate Valid()
      reads this
    {
      Consistent(users, categories, products, carts, orders, nextId)
    }

    constructor ()
      ensures Valid()
      ensures users == map[] && categories == [] && products == [] && carts == [] && orders == [] && nextId == 0
    {
      users, categories, products, carts, orders, nextId := map[], [], [], [], [], 0;
    }
  }
}

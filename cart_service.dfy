/** `CartService`: find-or-create the user's single cart, add a product to it
    (merging into the product's existing line), remove a line by id, and the
    projection of a cart into a `CartResponse`. */
module CartService {
  import opened Wrappers
  import opened JavaInt
  import opened Entities
  import opened Tables
  import opened Errors
  import opened Store
  import opened Dtos

  // ---------------- Cart lines ----------------

  /** The line of `items` for `productId`: the stream `filter(...).findFirst()`. */
  function LineFor(items: seq<CartItem>, productId: nat): (r: Option<nat>)
    ensures r.Some? ==> r.value < |items| && items[r.value].productId == productId
    ensures r.None? <==> forall j :: 0 <= j < |items| ==> items[j].productId != productId
  {
    FirstIndex(items, (it: CartItem) => it.productId == productId)
  }

  /** The line of `items` carrying line id `itemId`. */
  function LineWithId(items: seq<CartItem>, itemId: nat): (r: Option<nat>)
    ensures r.Some? ==> r.value < |items| && items[r.value].id == itemId
    ensures r.Some? ==> forall j :: 0 <= j < r.value ==> items[j].id != itemId
    ensures r.None? <==> forall j :: 0 <= j < |items| ==> items[j].id != itemId
  {
    FirstIndex(items, (it: CartItem) => it.id == itemId)
  }

  /** With line ids distinct, the line found for an id is THE line with that id. */
  lemma LineWithIdIsTheLine(items: seq<CartItem>, itemId: nat, j: nat)
    requires UniqueLineIds(items) && j < |items| && items[j].id == itemId
    ensures LineWithId(items, itemId) == Some(j)
  {
  }

  /** The lines after adding `quantity` units of `productId`: the existing line's
      quantity is raised (Java `int` addition), or a line with id `freshId` is appended. */
  function AddLine(items: seq<CartItem>, productId: nat, quantity: int32, freshId: nat): (r: seq<CartItem>)
    ensures LineFor(items, productId).Some? ==> |r| == |items|
    ensures LineFor(items, productId).None? ==> |r| == |items| + 1 && r[|items|] == CartItem(freshId, productId, quantity)
    ensures forall i :: 0 <= i < |items| && items[i].productId != productId ==> r[i] == items[i]
  {
    match LineFor(items, productId)
    case Some(k) => items[k := items[k].(quantity := Add(items[k].quantity, quantity))]
    case None => items + [CartItem(freshId, productId, quantity)]
  }

  /** The lines with the one at index `k` taken out (`List.remove`). */
  function RemoveAt(items: seq<CartItem>, k: nat): (r: seq<CartItem>)
    requires k < |items|
    ensures |r| == |items| - 1
    ensures forall i :: 0 <= i < k ==> r[i] == items[i]
    ensures forall i :: k <= i < |r| ==> r[i] == items[i + 1]
  {
    items[..k] + items[k + 1..]
  }

  /** Units of `productId` in the lines: a reference definition summing every line. */
  function QuantityOf(items: seq<CartItem>, productId: nat): int
  {
    if items == [] then 0
    else Contribution(items[0], productId) + QuantityOf(items[1..], productId)
  }

  /** The units one line holds of `productId`. */
  function Contribution(item: CartItem, productId: nat): int {
    if item.productId == productId then item.quantity as int else 0
  }

  lemma {:induction false} QuantityOfAbsent(items: seq<CartItem>, productId: nat)
    requires forall j :: 0 <= j < |items| ==> items[j].productId != productId
    ensures QuantityOf(items, productId) == 0
  {
    if items != [] {
      QuantityOfAbsent(items[1..], productId);
    }
  }

  lemma {:induction false} QuantityOfUnique(items: seq<CartItem>, k: nat)
    requires UniqueProducts(items) && k < |items|
    ensures QuantityOf(items, items[k].productId) == items[k].quantity as int
  {
    if k == 0 {
      QuantityOfAbsent(items[1..], items[0].productId);
    } else {
      QuantityOfUnique(items[1..], k - 1);
    }
  }

  lemma {:induction false} QuantityOfAppend(items: seq<CartItem>, x: CartItem, productId: nat)
    ensures QuantityOf(items + [x], productId) == QuantityOf(items, productId) + Contribution(x, productId)
  {
    if items != [] {
      assert (items + [x])[1..] == items[1..] + [x];
      QuantityOfAppend(items[1..], x, productId);
    }
  }

  lemma {:induction false} QuantityOfUpdate(items: seq<CartItem>, k: nat, x: CartItem, productId: nat)
    requires k < |items|
    ensures QuantityOf(items[k := x], productId)
         == QuantityOf(items, productId) - Contribution(items[k], productId) + Contribution(x, productId)
  {
    if k > 0 {
      assert items[k := x][1..] == items[1..][k - 1 := x];
      QuantityOfUpdate(items[1..], k - 1, x, productId);
    } else {
      assert items[k := x][1..] == items[1..];
    }
  }

  lemma {:induction false} QuantityOfRemove(items: seq<CartItem>, k: nat, productId: nat)
    requires k < |items|
    ensures QuantityOf(RemoveAt(items, k), productId) == QuantityOf(items, productId) - Contribution(items[k], productId)
  {
    if k > 0 {
      assert RemoveAt(items, k)[1..] == RemoveAt(items[1..], k - 1);
      QuantityOfRemove(items[1..], k - 1, productId);
    } else {
      assert RemoveAt(items, k) == items[1..];
    }
  }

  /** With unique products, the merge happens on THE line for the product, whichever
      index it sits at; the count of lines and every other line stay as they were. */
  lemma AddLineMerges(items: seq<CartItem>, productId: nat, quantity: int32, freshId: nat, k: nat)
    requires UniqueProducts(items) && k < |items| && items[k].productId == productId
    ensures var r := AddLine(items, productId, quantity, freshId);
      |r| == |items| && r[k] == items[k].(quantity := Add(items[k].quantity, quantity)) &&
      forall i :: 0 <= i < |items| && i != k ==> r[i] == items[i]
  {
    assert LineFor(items, productId).Some?;
  }

  /** A product not yet in the cart gets exactly one new line, at the end. */
  lemma AddLineAppends(items: seq<CartItem>, productId: nat, quantity: int32, freshId: nat)
    requires forall j :: 0 <= j < |items| ==> items[j].productId != productId
    ensures AddLine(items, productId, quantity, freshId) == items + [CartItem(freshId, productId, quantity)]
  {
  }

  /** Adding keeps the products of a cart's lines pairwise distinct. */
  lemma AddLineKeepsUnique(items: seq<CartItem>, productId: nat, quantity: int32, freshId: nat)
    requires UniqueProducts(items)
    ensures UniqueProducts(AddLine(items, productId, quantity, freshId))
  {
    var r := AddLine(items, productId, quantity, freshId);
    forall i, j | 0 <= i < j < |r| ensures r[i].productId != r[j].productId {
      if LineFor(items, productId).None? {
        if j == |items| {
          assert r[i] == items[i];
        } else {
          assert r[i] == items[i] && r[j] == items[j];
        }
      } else {
        assert r[i].productId == items[i].productId && r[j].productId == items[j].productId;
      }
    }
  }

  /** Adding with a line id above every existing one keeps the line ids distinct. */
  lemma AddLineKeepsIdsUnique(items: seq<CartItem>, productId: nat, quantity: int32, freshId: nat)
    requires UniqueLineIds(items)
    requires forall k :: 0 <= k < |items| ==> items[k].id < freshId
    ensures UniqueLineIds(AddLine(items, productId, quantity, freshId))
  {
    var r := AddLine(items, productId, quantity, freshId);
    forall i, j | 0 <= i < j < |r| ensures r[i].id != r[j].id {
      if LineFor(items, productId).None? {
        assert r[i] == items[i];
        if j < |items| {
          assert r[j] == items[j];
        }
      } else {
        assert r[i].id == items[i].id && r[j].id == items[j].id;
      }
    }
  }

  /** Adding `quantity` units of a product raises its unit count by exactly `quantity`
      (when the line's total fits in an `int`) and leaves every other product's count. */
  lemma AddLineQuantity(items: seq<CartItem>, productId: nat, quantity: int32, freshId: nat, other: nat)
    requires UniqueProducts(items)
    requires InRange(QuantityOf(items, productId) + quantity as int)
    ensures QuantityOf(AddLine(items, productId, quantity, freshId), productId) == QuantityOf(items, productId) + quantity as int
    ensures other != productId ==> QuantityOf(AddLine(items, productId, quantity, freshId), other) == QuantityOf(items, other)
  {
    match LineFor(items, productId)
    case Some(k) =>
      QuantityOfUnique(items, k);
      var x := items[k].(quantity := Add(items[k].quantity, quantity));
      QuantityOfUpdate(items, k, x, productId);
      QuantityOfUpdate(items, k, x, other);
    case None =>
      QuantityOfAbsent(items, productId);
      QuantityOfAppend(items, CartItem(freshId, productId, quantity), productId);
      QuantityOfAppend(items, CartItem(freshId, productId, quantity), other);
  }

  /** Adding the same product twice accumulates its quantity on one line rather
      than creating a second line. */
  lemma AddTwiceAccumulates(items: seq<CartItem>, productId: nat, q1: int32, q2: int32, id1: nat, id2: nat)
    requires UniqueProducts(items)
    requires InRange(QuantityOf(items, productId) + q1 as int)
    requires InRange(QuantityOf(items, productId) + q1 as int + q2 as int)
    ensures var once := AddLine(items, productId, q1, id1);
      var twice := AddLine(once, productId, q2, id2);
      |twice| == |once| &&
      QuantityOf(twice, productId) == QuantityOf(items, productId) + q1 as int + q2 as int
  {
    var once := AddLine(items, productId, q1, id1);
    AddLineQuantity(items, productId, q1, id1, productId);
    AddLineKeepsUnique(items, productId, q1, id1);
    AddLineQuantity(once, productId, q2, id2, productId);
    assert LineFor(once, productId).Some? by {
      if LineFor(items, productId).None? {
        assert once[|items|].productId == productId;
      } else {
        var k := LineFor(items, productId).value;
        assert once[k].productId == productId;
      }
    }
  }

  /** Removing a line keeps the products of the remaining lines pairwise distinct. */
  lemma RemoveAtKeepsUnique(items: seq<CartItem>, k: nat)
    requires UniqueProducts(items) && k < |items|
    ensures UniqueProducts(RemoveAt(items, k))
  {
    var r := RemoveAt(items, k);
    forall i, j | 0 <= i < j < |r| ensures r[i].productId != r[j].productId {
      var i' := if i < k then i else i + 1;
      var j' := if j < k then j else j + 1;
      assert r[i] == items[i'] && r[j] == items[j'];
    }
  }

  /** Removing a line keeps the ids of the remaining lines pairwise distinct. */
  lemma RemoveAtKeepsIdsUnique(items: seq<CartItem>, k: nat)
    requires UniqueLineIds(items) && k < |items|
    ensures UniqueLineIds(RemoveAt(items, k))
  {
    var r := RemoveAt(items, k);
    forall i, j | 0 <= i < j < |r| ensures r[i].id != r[j].id {
      var i' := if i < k then i else i + 1;
      var j' := if j < k then j else j + 1;
      assert r[i] == items[i'] && r[j] == items[j'];
    }
  }

  /** Removing the line for a product takes all of that product's units out of the
      cart and leaves every other product's count as it was. */
  lemma RemoveAtQuantity(items: seq<CartItem>, k: nat, other: nat)
    requires UniqueProducts(items) && k < |items|
    ensures QuantityOf(RemoveAt(items, k), items[k].productId) == 0
    ensures other != items[k].productId ==> QuantityOf(RemoveAt(items, k), other) == QuantityOf(items, other)
  {
    QuantityOfUnique(items, k);
    QuantityOfRemove(items, k, items[k].productId);
    QuantityOfRemove(items, k, other);
  }

  // ---------------- Find or create the user's cart ----------------

  /** The carts table after `findByUser(user).orElseGet(save a new cart)`, the
      index of the user's cart in it and the id counter afterwards. */
  datatype CartSlot = CartSlot(carts: seq<Cart>, index: nat, nextId: nat)

  function FindOrCreateCart(carts: seq<Cart>, uid: string, nextId: nat): (s: CartSlot)
    ensures s.index < |s.carts| && s.carts[s.index].owner == uid
    ensures FindUserCart(carts, uid).Some? ==> s.carts == carts && s.nextId == nextId
    ensures FindUserCart(carts, uid).None? ==>
      s.carts == carts + [Cart(nextId, uid, [])] && s.nextId == nextId + 1
  {
    match FindUserCart(carts, uid)
    case Some(k) => CartSlot(carts, k, nextId)
    case None => CartSlot(carts + [Cart(nextId, uid, [])], |carts|, nextId + 1)
  }

  /** A cart is created only when the user has none, so one cart per user is kept. */
  lemma FindOrCreateKeepsOnePerUser(carts: seq<Cart>, uid: string, nextId: nat)
    requires OneCartPerUser(carts)
    ensures OneCartPerUser(FindOrCreateCart(carts, uid, nextId).carts)
  {
    var s := FindOrCreateCart(carts, uid, nextId);
    if FindUserCart(carts, uid).None? {
      forall i, j | 0 <= i < j < |s.carts| ensures s.carts[i].owner != s.carts[j].owner {
        if j == |carts| {
          assert s.carts[i] == carts[i];
        } else {
          assert s.carts[i] == carts[i] && s.carts[j] == carts[j];
        }
      }
    }
  }

  /** A created cart takes the counter as its id and has no lines, so cart ids stay
      distinct and every id stays below the advanced counter. */
  lemma FindOrCreateKeepsIds(carts: seq<Cart>, uid: string, nextId: nat)
    requires UniqueCartIds(carts) && CartLineIdsUnique(carts) && CartIdsBelow(carts, nextId)
    ensures var s := FindOrCreateCart(carts, uid, nextId);
      UniqueCartIds(s.carts) && CartLineIdsUnique(s.carts) && CartIdsBelow(s.carts, s.nextId)
  {
    var s := FindOrCreateCart(carts, uid, nextId);
    if FindUserCart(carts, uid).None? {
      forall i | 0 <= i < |s.carts|
        ensures UniqueLineIds(s.carts[i].items)
        ensures s.carts[i].id < s.nextId && forall m :: 0 <= m < |s.carts[i].items| ==> s.carts[i].items[m].id < s.nextId
      {
        if i < |carts| {
          assert s.carts[i] == carts[i];
        }
      }
      forall i, j | 0 <= i < j < |s.carts| ensures s.carts[i].id != s.carts[j].id {
        assert s.carts[i] == carts[i];
        if j < |carts| {
          assert s.carts[j] == carts[j];
        }
      }
    }
  }

  /** Finding or creating a stored user's cart keeps the store consistent. */
  lemma FindOrCreateKeepsConsistent(users: map<string, User>, categories: seq<Category>, products: seq<Product>,
                                    carts: seq<Cart>, orders: seq<Order>, nextId: nat, uid: string)
    requires Consistent(users, categories, products, carts, orders, nextId) && uid in users
    ensures var s := FindOrCreateCart(carts, uid, nextId);
      Consistent(users, categories, products, s.carts, orders, s.nextId)
  {
    var s := FindOrCreateCart(carts, uid, nextId);
    FindOrCreateKeepsOnePerUser(carts, uid, nextId);
    FindOrCreateKeepsIds(carts, uid, nextId);
    if FindUserCart(carts, uid).None? {
      forall i | 0 <= i < |s.carts|
        ensures s.carts[i].owner in users && UniqueProducts(s.carts[i].items) && LinesResolve(s.carts[i].items, products)
      {
        if i < |carts| {
          assert s.carts[i] == carts[i];
        }
      }
    }
  }

  /** Find-or-create is idempotent: a second call finds the cart the first returned
      and changes nothing. */
  lemma FindOrCreateIdempotent(carts: seq<Cart>, uid: string, nextId: nat)
    ensures var s := FindOrCreateCart(carts, uid, nextId);
      FindOrCreateCart(s.carts, uid, s.nextId) == s
  {
    var s := FindOrCreateCart(carts, uid, nextId);
    assert s.carts[s.index].owner == uid;
  }

  // ---------------- Responses ----------------

  /** `mapToCartResponse`: the cart's id and its lines, in order, with their ids,
      quantities and products. */
  function MapToCartResponse(cart: Cart, products: seq<Product>): (r: CartResponse)
    requires LinesResolve(cart.items, products)
    ensures r.id == cart.id && |r.items| == |cart.items|
    ensures forall i :: 0 <= i < |cart.items| ==>
      r.items[i].id == cart.items[i].id && r.items[i].quantity == cart.items[i].quantity &&
      r.items[i].product.id == cart.items[i].productId
  {
    CartResponse(cart.id, seq(|cart.items|, i requires 0 <= i < |cart.items| =>
      CartItemResponse(cart.items[i].id, cart.items[i].quantity,
        ToProductResponse(ProductWithId(products, cart.items[i].productId)))))
  }

  // ---------------- Service operations ----------------

  /** A table update that only replaces the lines of cart `k` keeps one cart per
      user, every cart's owner and distinct cart ids. */
  lemma ReplaceItemsKeepsCarts(carts: seq<Cart>, users: map<string, User>, k: nat, items: seq<CartItem>)
    requires k < |carts| && OneCartPerUser(carts) && CartsOwned(carts, users) && UniqueCartIds(carts)
    ensures OneCartPerUser(carts[k := carts[k].(items := items)])
    ensures CartsOwned(carts[k := carts[k].(items := items)], users)
    ensures UniqueCartIds(carts[k := carts[k].(items := items)])
  {
    var c := carts[k := carts[k].(items := items)];
    forall i, j | 0 <= i < j < |c| ensures c[i].owner != c[j].owner && c[i].id != c[j].id {
      assert c[i].owner == carts[i].owner && c[j].owner == carts[j].owner;
      assert c[i].id == carts[i].id && c[j].id == carts[j].id;
    }
  }

  /** Replacing the lines of cart `k` by lines with distinct products and ids, all
      resolving and all below the counter, keeps every invariant of the carts table. */
  lemma ReplaceLinesKeeps(carts: seq<Cart>, users: map<string, User>, products: seq<Product>, n: nat,
                          k: nat, lines: seq<CartItem>)
    requires k < |carts|
    requires CartsOwned(carts, users) && OneCartPerUser(carts) && UniqueCartIds(carts)
    requires CartLinesUnique(carts) && CartLineIdsUnique(carts) && CartsResolve(carts, products) && CartIdsBelow(carts, n)
    requires UniqueProducts(lines) && UniqueLineIds(lines) && LinesResolve(lines, products)
    requires forall m :: 0 <= m < |lines| ==> lines[m].id < n
    ensures var c := carts[k := carts[k].(items := lines)];
      CartsOwned(c, users) && OneCartPerUser(c) && UniqueCartIds(c) &&
      CartLinesUnique(c) && CartLineIdsUnique(c) && CartsResolve(c, products) && CartIdsBelow(c, n)
  {
    var c := carts[k := carts[k].(items := lines)];
    ReplaceItemsKeepsCarts(carts, users, k, lines);
    forall i | 0 <= i < |c|
      ensures UniqueProducts(c[i].items) && UniqueLineIds(c[i].items) && LinesResolve(c[i].items, products)
      ensures c[i].id < n && forall m :: 0 <= m < |c[i].items| ==> c[i].items[m].id < n
    {
      if i != k {
        assert c[i] == carts[i];
      }
    }
  }

  /** `cartRepository.save`: store the new carts and id counter. */
  method SaveCarts(db: Database, carts: seq<Cart>, nextId: nat)
    requires Consistent(db.users, db.categories, db.products, carts, db.orders, nextId)
    modifies db
    ensures db.Valid()
    ensures db.users == old(db.users) && db.categories == old(db.categories)
    ensures db.products == old(db.products) && db.orders == old(db.orders)
    ensures db.carts == carts && db.nextId == nextId
  {
    db.carts, db.nextId := carts, nextId;
  }

  /** `getCart`: the user's cart, created empty when there is none. */
  method GetCart(db: Database, uid: string) returns (r: Result<CartResponse, ServiceError>)
    requires db.Valid()
    modifies db
    ensures db.Valid()
    ensures db.users == old(db.users) && db.categories == old(db.categories)
    ensures db.products == old(db.products) && db.orders == old(db.orders)
    ensures uid !in old(db.users) ==>
      r == Failure(UserNotFound) && db.carts == old(db.carts) && db.nextId == old(db.nextId)
    ensures uid in old(db.users) ==>
      var s := FindOrCreateCart(old(db.carts), uid, old(db.nextId));
      db.carts == s.carts && db.nextId == s.nextId &&
      r == Success(MapToCartResponse(db.carts[s.index], db.products))
  {
    if uid !in db.users {
      return Failure(UserNotFound);
    }
    var carts, nextId := db.carts, db.nextId;
    var found := FindUserCart(carts, uid);
    var index: nat;
    if found.None? {
      carts := carts + [Cart(nextId, uid, [])];
      nextId := nextId + 1;
      index := |carts| - 1;
    } else {
      index := found.value;
    }
    assert CartSlot(carts, index, nextId) == FindOrCreateCart(db.carts, uid, db.nextId);
    FindOrCreateKeepsConsistent(db.users, db.categories, db.products, db.carts, db.orders, db.nextId, uid);
    r := Success(MapToCartResponse(carts[index], db.products));
    if found.None? {
      SaveCarts(db, carts, nextId);
    }
  }

  /** The tables after a successful add: the user's cart (found or created) with the
      product merged into its lines. */
  function AddedCarts(carts: seq<Cart>, uid: string, productId: nat, quantity: int32, nextId: nat): (r: (seq<Cart>, nat))
    ensures |carts| <= |r.0| <= |carts| + 1 && nextId <= r.1 <= nextId + 2
    ensures forall i :: 0 <= i < |carts| && carts[i].owner != uid ==> r.0[i] == carts[i]
  {
    var s := FindOrCreateCart(carts, uid, nextId);
    var items := s.carts[s.index].items;
    (s.carts[s.index := s.carts[s.index].(items := AddLine(items, productId, quantity, s.nextId))],
     if LineFor(items, productId).Some? then s.nextId else s.nextId + 1)
  }

  /** A successful add keeps the store consistent: one cart per user, unique
      products per cart, every line resolving, fresh ids still fresh. */
  lemma AddKeepsConsistent(users: map<string, User>, categories: seq<Category>, products: seq<Product>,
                           carts: seq<Cart>, orders: seq<Order>, nextId: nat,
                           uid: string, productId: nat, quantity: int32)
    requires Consistent(users, categories, products, carts, orders, nextId)
    requires uid in users && productId in ProductIds(products)
    ensures var (carts', nextId') := AddedCarts(carts, uid, productId, quantity, nextId);
      Consistent(users, categories, products, carts', orders, nextId')
  {
    var s := FindOrCreateCart(carts, uid, nextId);
    FindOrCreateKeepsConsistent(users, categories, products, carts, orders, nextId, uid);
    var items := s.carts[s.index].items;
    var lines := AddLine(items, productId, quantity, s.nextId);
    var (carts', nextId') := AddedCarts(carts, uid, productId, quantity, nextId);
    assert CartsOwned(s.carts, users) && CartLinesUnique(s.carts) && CartsResolve(s.carts, products);
    assert CartIdsBelow(s.carts, nextId') && UniqueLineIds(items);
    AddLineKeepsUnique(items, productId, quantity, s.nextId);
    AddLineKeepsIdsUnique(items, productId, quantity, s.nextId);
    assert LinesResolve(lines, products) && forall m :: 0 <= m < |lines| ==> lines[m].id < nextId' by {
      forall m | 0 <= m < |lines| ensures lines[m].productId in ProductIds(products) && lines[m].id < nextId' {
        if m < |items| && items[m].productId != productId {
          assert lines[m] == items[m];
        }
      }
    }
    ReplaceLinesKeeps(s.carts, users, products, nextId', s.index, lines);
  }

  /** `addItemToCart` (transactional): merge `quantity` units of `productId` into the
      user's cart, creating the cart if needed. An unknown product rolls back the
      cart just created. */
  method AddItemToCart(db: Database, uid: string, productId: nat, quantity: int32)
    returns (r: Result<CartResponse, ServiceError>)
    requires db.Valid()
    modifies db
    ensures db.Valid()
    ensures db.users == old(db.users) && db.categories == old(db.categories)
    ensures db.products == old(db.products) && db.orders == old(db.orders)
    ensures uid !in old(db.users) ==>
      r == Failure(UserNotFound) && db.carts == old(db.carts) && db.nextId == old(db.nextId)
    ensures uid in old(db.users) && productId !in ProductIds(old(db.products)) ==>
      r == Failure(ProductNotFound) && db.carts == old(db.carts) && db.nextId == old(db.nextId)
    ensures uid in old(db.users) && productId in ProductIds(old(db.products)) ==>
      var s := FindOrCreateCart(old(db.carts), uid, old(db.nextId));
      (db.carts, db.nextId) == AddedCarts(old(db.carts), uid, productId, quantity, old(db.nextId)) &&
      r == Success(MapToCartResponse(db.carts[s.index], db.products))
  {
    if uid !in db.users {
      return Failure(UserNotFound);
    }
    var carts, nextId := db.carts, db.nextId;
    var found := FindUserCart(carts, uid);
    var index: nat;
    if found.None? {
      carts := carts + [Cart(nextId, uid, [])];
      nextId := nextId + 1;
      index := |carts| - 1;
    } else {
      index := found.value;
    }
    if FindProduct(db.products, productId).None? {
      // the transaction rolls back the cart created above: nothing is stored
      return Failure(ProductNotFound);
    }
    assert CartSlot(carts, index, nextId) == FindOrCreateCart(db.carts, uid, db.nextId);
    r := AddToCart(db, uid, productId, quantity, carts, index, nextId);
  }

  /** Steps 3 to 5 of `addItemToCart`, on the user's cart at `index` in `carts` (found
      or just created, with `nextId` the counter after that): merge the product into
      the cart's lines, save the cart and return its response. */
  method AddToCart(db: Database, uid: string, productId: nat, quantity: int32,
                   carts: seq<Cart>, index: nat, nextId: nat)
    returns (r: Result<CartResponse, ServiceError>)
    requires db.Valid() && uid in db.users && productId in ProductIds(db.products)
    requires CartSlot(carts, index, nextId) == FindOrCreateCart(db.carts, uid, db.nextId)
    modifies db
    ensures db.Valid()
    ensures db.users == old(db.users) && db.categories == old(db.categories)
    ensures db.products == old(db.products) && db.orders == old(db.orders)
    ensures (db.carts, db.nextId) == AddedCarts(old(db.carts), uid, productId, quantity, old(db.nextId))
    ensures r == Success(MapToCartResponse(db.carts[index], db.products))
  {
    var cart := carts[index];
    var nextId' := nextId;
    var existing := LineFor(cart.items, productId);
    if existing.Some? {
      var item := cart.items[existing.value];
      cart := cart.(items := cart.items[existing.value := item.(quantity := Add(item.quantity, quantity))]);
    } else {
      cart := cart.(items := cart.items + [CartItem(nextId, productId, quantity)]);
      nextId' := nextId + 1;
    }
    var carts' := carts[index := cart];
    assert (carts', nextId') == AddedCarts(db.carts, uid, productId, quantity, db.nextId);
    AddKeepsConsistent(db.users, db.categories, db.products, db.carts, db.orders, db.nextId, uid, productId, quantity);
    r := Success(MapToCartResponse(cart, db.products));
    SaveCarts(db, carts', nextId');
  }

  /** Taking one line out of one cart keeps the store consistent. */
  lemma RemoveKeepsConsistent(users: map<string, User>, categories: seq<Category>, products: seq<Product>,
                              carts: seq<Cart>, orders: seq<Order>, nextId: nat, k: nat, j: nat)
    requires Consistent(users, categories, products, carts, orders, nextId)
    requires k < |carts| && j < |carts[k].items|
    ensures Consistent(users, categories, products, carts[k := carts[k].(items := RemoveAt(carts[k].items, j))], orders, nextId)
  {
    var items := carts[k].items;
    var lines := RemoveAt(items, j);
    RemoveAtKeepsUnique(items, j);
    RemoveAtKeepsIdsUnique(items, j);
    assert LinesResolve(items, products) && CartIdsBelow(carts, nextId);
    assert LinesResolve(lines, products) && forall m :: 0 <= m < |lines| ==> lines[m].id < nextId by {
      forall m | 0 <= m < |lines| ensures lines[m] in items {
        if m < j { assert lines[m] == items[m]; } else { assert lines[m] == items[m + 1]; }
      }
    }
    ReplaceLinesKeeps(carts, users, products, nextId, k, lines);
  }

  /** `removeItemFromCart` (transactional): take the line with id `itemId` out of the
      user's cart. A missing cart is an error here, not created. */
  method RemoveItemFromCart(db: Database, uid: string, itemId: nat) returns (r: Result<CartResponse, ServiceError>)
    requires db.Valid()
    modifies db
    ensures db.Valid()
    ensures db.users == old(db.users) && db.categories == old(db.categories)
    ensures db.products == old(db.products) && db.orders == old(db.orders) && db.nextId == old(db.nextId)
    ensures uid !in old(db.users) ==> r == Failure(UserNotFound) && db.carts == old(db.carts)
    ensures uid in old(db.users) && FindUserCart(old(db.carts), uid).None? ==>
      r == Failure(CartNotFound) && db.carts == old(db.carts)
    ensures uid in old(db.users) && FindUserCart(old(db.carts), uid).Some? ==>
      var k := FindUserCart(old(db.carts), uid).value;
      var items := old(db.carts)[k].items;
      match LineWithId(items, itemId)
      case None => r == Failure(CartItemNotFound) && db.carts == old(db.carts)
      case Some(j) =>
        db.carts == old(db.carts)[k := old(db.carts)[k].(items := RemoveAt(items, j))] &&
        r == Success(MapToCartResponse(db.carts[k], db.products))
  {
    if uid !in db.users {
      return Failure(UserNotFound);
    }
    var found := FindUserCart(db.carts, uid);
    if found.None? {
      return Failure(CartNotFound);
    }
    var cart := db.carts[found.value];
    var line := LineWithId(cart.items, itemId);
    if line.None? {
      return Failure(CartItemNotFound);
    }
    RemoveKeepsConsistent(db.users, db.categories, db.products, db.carts, db.orders, db.nextId, found.value, line.value);
    cart := cart.(items := RemoveAt(cart.items, line.value));
    r := Success(MapToCartResponse(cart, db.products));
    SaveCarts(db, db.carts[found.value := cart], db.nextId);
  }
}

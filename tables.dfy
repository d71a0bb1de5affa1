/** Lookups over the tables: the repositories' `findById`, `findByUser` and
    `findByName` queries and the services' stream `filter(...).findFirst()`. */
module Tables {
  import opened Wrappers
  import opened Entities

  /** The index of the first element of `s` satisfying `p`, if any. */
  function FirstIndex<T>(s: seq<T>, p: T -> bool): (r: Option<nat>)
    ensures r.Some? ==> r.value < |s| && p(s[r.value])
    ensures r.Some? ==> forall j :: 0 <= j < r.value ==> !p(s[j])
    ensures r.None? <==> forall j :: 0 <= j < |s| ==> !p(s[j])
  {
    if s == [] then None
    else if p(s[0]) then Some(0)
    else match FirstIndex(s[1..], p)
      case None => None
      case Some(k) => Some(k + 1)
  }

  /** The ids present in the products table. */
  function ProductIds(products: seq<Product>): set<nat> {
    set i | 0 <= i < |products| :: products[i].id
  }

  /** `productRepository.findById`: the row holding `id`. */
  function FindProduct(products: seq<Product>, id: nat): (r: Option<nat>)
    ensures r.Some? ==> r.value < |products| && products[r.value].id == id
    ensures r.Some? <==> id in ProductIds(products)
  {
    FirstIndex(products, (p: Product) => p.id == id)
  }

  /** The product a resolving id refers to. */
  function ProductWithId(products: seq<Product>, id: nat): (p: Product)
    requires id in ProductIds(products)
    ensures p in products && p.id == id
  {
    products[FindProduct(products, id).value]
  }

  /** `cartRepository.findByUser`: the row of the user's cart. */
  function FindUserCart(carts: seq<Cart>, uid: string): (r: Option<nat>)
    ensures r.Some? ==> r.value < |carts| && carts[r.value].owner == uid
    ensures r.None? <==> forall j :: 0 <= j < |carts| ==> carts[j].owner != uid
  {
    FirstIndex(carts, (c: Cart) => c.owner == uid)
  }

  /** `categoryRepository.findByName`. */
  function FindCategory(categories: seq<Category>, name: string): (r: Option<nat>)
    ensures r.Some? ==> r.value < |categories| && categories[r.value].name == name
    ensures r.None? <==> forall j :: 0 <= j < |categories| ==> categories[j].name != name
  {
    FirstIndex(categories, (c: Category) => c.name == name)
  }

  /** `orderRepository.findById`. */
  function FindOrder(orders: seq<Order>, id: nat): (r: Option<nat>)
    ensures r.Some? ==> r.value < |orders| && orders[r.value].id == id
    ensures r.None? <==> forall j :: 0 <= j < |orders| ==> orders[j].id != id
  {
    FirstIndex(orders, (o: Order) => o.id == id)
  }
}

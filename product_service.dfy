/** `ProductServiceImpl`: catalogue CRUD. Creating or updating a product resolves
    its category by name, creating the category row on first use. */
module ProductService {
  import opened Wrappers
  import opened Entities
  import opened Tables
  import opened Errors
  import opened Store
  import opened Dtos

  // ---------------- Category find-or-create ----------------

  /** The categories table after `findByName(name).orElseGet(save a new category)`,
      the category found or created, and the id counter afterwards. */
  datatype CategorySlot = CategorySlot(categories: seq<Category>, category: Category, nextId: nat)

  function FindOrCreateCategory(categories: seq<Category>, name: string, nextId: nat): (s: CategorySlot)
    ensures s.category.name == name && s.category in s.categories
    ensures FindCategory(categories, name).Some? ==> s.categories == categories && s.nextId == nextId
    ensures FindCategory(categories, name).None? ==>
      s.categories == categories + [Category(nextId, name)] && s.nextId == nextId + 1
  {
    match FindCategory(categories, name)
    case Some(k) => CategorySlot(categories, categories[k], nextId)
    case None =>
      var c := Category(nextId, name);
      CategorySlot(categories + [c], c, nextId + 1)
  }

  /** How many category rows carry `name` (a reference definition). */
  function CountNamed(categories: seq<Category>, name: string): nat {
    if categories == [] then 0
    else (if categories[0].name == name then 1 else 0) + CountNamed(categories[1..], name)
  }

  lemma {:induction false} CountNamedAbsent(categories: seq<Category>, name: string)
    requires forall j :: 0 <= j < |categories| ==> categories[j].name != name
    ensures CountNamed(categories, name) == 0
  {
    if categories != [] {
      CountNamedAbsent(categories[1..], name);
    }
  }

  /** With unique names, a present name is counted exactly once. */
  lemma {:induction false} CountNamedUnique(categories: seq<Category>, k: nat)
    requires UniqueCategoryNames(categories) && k < |categories|
    ensures CountNamed(categories, categories[k].name) == 1
  {
    if k == 0 {
      CountNamedAbsent(categories[1..], categories[0].name);
    } else {
      CountNamedUnique(categories[1..], k - 1);
    }
  }

  /** A category is created only for an unseen name, so names stay unique. */
  lemma FindOrCreateCategoryKeepsUnique(categories: seq<Category>, name: string, nextId: nat)
    requires UniqueCategoryNames(categories)
    ensures UniqueCategoryNames(FindOrCreateCategory(categories, name, nextId).categories)
  {
    var s := FindOrCreateCategory(categories, name, nextId);
    forall i, j | 0 <= i < j < |s.categories| ensures s.categories[i].name != s.categories[j].name {
      if FindCategory(categories, name).None? && j == |categories| {
        assert s.categories[i] == categories[i];
      } else {
        assert s.categories[i] == categories[i] && s.categories[j] == categories[j];
      }
    }
  }

  /** After find-or-create, exactly one category row carries the name. */
  lemma FindOrCreateCategoryLeavesOne(categories: seq<Category>, name: string, nextId: nat)
    requires UniqueCategoryNames(categories)
    ensures CountNamed(FindOrCreateCategory(categories, name, nextId).categories, name) == 1
  {
    var s := FindOrCreateCategory(categories, name, nextId);
    FindOrCreateCategoryKeepsUnique(categories, name, nextId);
    match FindCategory(categories, name)
    case Some(k) => CountNamedUnique(categories, k);
    case None => CountNamedUnique(s.categories, |categories|);
  }

  /** Naming the same category again finds the row created the first time. */
  lemma FindOrCreateCategoryIdempotent(categories: seq<Category>, name: string, nextId: nat)
    ensures var s := FindOrCreateCategory(categories, name, nextId);
      FindOrCreateCategory(s.categories, name, s.nextId) == s
  {
    var s := FindOrCreateCategory(categories, name, nextId);
    if FindCategory(categories, name).None? {
      assert s.categories[|categories|].name == name;
    }
  }

  // ---------------- Products ----------------

  /** `modelMapper.map(req, Product.class)` with the resolved category and a fresh id. */
  function NewProduct(id: nat, req: ProductRequest, category: Category): (r: Product)
    ensures r.id == id && r.images == [] && r.category == category
    ensures r.name == req.name && r.brand == req.brand && r.inventory == req.inventory
    ensures r.price == req.price && r.description == req.description
  {
    Product(id, req.name, req.brand, req.inventory, req.price, req.description, category, [])
  }

  /** The field-by-field overwrite of `update`. */
  function Overwritten(p: Product, req: ProductRequest, category: Category): (r: Product)
    ensures r.id == p.id && r.images == p.images
    ensures r.name == req.name && r.brand == req.brand && r.inventory == req.inventory
    ensures r.price == req.price && r.description == req.description && r.category == category
  {
    p.(name := req.name, brand := req.brand, inventory := req.inventory, price := req.price,
       description := req.description, category := category)
  }

  /** Whether a cart line or an order line still refers to product `id`. */
  predicate Referenced(carts: seq<Cart>, orders: seq<Order>, id: nat) {
    (exists i, k :: 0 <= i < |carts| && 0 <= k < |carts[i].items| && carts[i].items[k].productId == id) ||
    (exists i, k :: 0 <= i < |orders| && 0 <= k < |orders[i].items| && orders[i].items[k].productId == id)
  }

  lemma ProductIdsAppend(products: seq<Product>, p: Product)
    ensures ProductIds(products + [p]) == ProductIds(products) + {p.id}
  {
    var ps := products + [p];
    assert forall i :: 0 <= i < |products| ==> ps[i] == products[i];
    assert ps[|products|] == p;
  }

  lemma ProductIdsUpdate(products: seq<Product>, k: nat, p: Product)
    requires k < |products| && p.id == products[k].id
    ensures ProductIds(products[k := p]) == ProductIds(products)
  {
    var ps := products[k := p];
    assert forall i :: 0 <= i < |products| ==> ps[i].id == products[i].id;
  }

  lemma ProductIdsRemove(products: seq<Product>, k: nat)
    requires k < |products| && UniqueProductIds(products)
    ensures ProductIds(products[..k] + products[k + 1..]) == ProductIds(products) - {products[k].id}
  {
    var ps := products[..k] + products[k + 1..];
    forall i | 0 <= i < |ps| ensures ps[i] == products[if i < k then i else i + 1] {
    }
    forall x | x in ProductIds(products) - {products[k].id} ensures x in ProductIds(ps) {
      var i :| 0 <= i < |products| && products[i].id == x;
      assert ps[if i < k then i else i - 1] == products[i];
    }
  }

  /** A create keeps the store consistent. */
  lemma CreateKeepsConsistent(users: map<string, User>, categories: seq<Category>, products: seq<Product>,
                              carts: seq<Cart>, orders: seq<Order>, nextId: nat, req: ProductRequest)
    requires Consistent(users, categories, products, carts, orders, nextId)
    ensures var s := FindOrCreateCategory(categories, req.category, nextId);
      Consistent(users, s.categories, products + [NewProduct(s.nextId, req, s.category)], carts, orders, s.nextId + 1)
  {
    var s := FindOrCreateCategory(categories, req.category, nextId);
    var p := NewProduct(s.nextId, req, s.category);
    FindOrCreateCategoryKeepsUnique(categories, req.category, nextId);
    ProductIdsAppend(products, p);
    var ps := products + [p];
    assert forall i :: 0 <= i < |products| ==> ps[i] == products[i];
    assert CategoriesStored(ps, s.categories) by {
      forall i | 0 <= i < |ps| ensures ps[i].category in s.categories {
        if i < |products| {
          assert products[i].category in categories;
        }
      }
    }
    assert CartsResolve(carts, ps) by {
      forall i | 0 <= i < |carts| ensures LinesResolve(carts[i].items, ps) {
        assert LinesResolve(carts[i].items, products);
      }
    }
    assert OrdersResolve(orders, ps) by {
      forall i | 0 <= i < |orders| ensures OrderLinesResolve(orders[i].items, ps) {
        assert OrderLinesResolve(orders[i].items, products);
      }
    }
  }

  /** `create`: resolve the category, then save a new product with a fresh id. */
  method Create(db: Database, req: ProductRequest) returns (r: ProductResponse)
    requires db.Valid()
    modifies db
    ensures db.Valid()
    ensures db.users == old(db.users) && db.carts == old(db.carts) && db.orders == old(db.orders)
    ensures var s := FindOrCreateCategory(old(db.categories), req.category, old(db.nextId));
      db.categories == s.categories && db.nextId == s.nextId + 1 &&
      db.products == old(db.products) + [NewProduct(s.nextId, req, s.category)] &&
      r == ToProductResponse(NewProduct(s.nextId, req, s.category))
  {
    var categories, nextId := db.categories, db.nextId;
    var found := FindCategory(categories, req.category);
    var category: Category;
    if found.Some? {
      category := categories[found.value];
    } else {
      category := Category(nextId, req.category);
      categories := categories + [category];
      nextId := nextId + 1;
    }
    var product := NewProduct(nextId, req, category);
    assert CategorySlot(categories, category, nextId) == FindOrCreateCategory(db.categories, req.category, db.nextId);
    CreateKeepsConsistent(db.users, db.categories, db.products, db.carts, db.orders, db.nextId, req);
    r := ToProductResponse(product);
    db.categories, db.products, db.nextId := categories, db.products + [product], nextId + 1;
  }

  /** An update keeps the store consistent: the id is unchanged, so every line
      still resolves. */
  lemma UpdateKeepsConsistent(users: map<string, User>, categories: seq<Category>, products: seq<Product>,
                              carts: seq<Cart>, orders: seq<Order>, nextId: nat, k: nat, req: ProductRequest)
    requires Consistent(users, categories, products, carts, orders, nextId) && k < |products|
    ensures var s := FindOrCreateCategory(categories, req.category, nextId);
      Consistent(users, s.categories, products[k := Overwritten(products[k], req, s.category)], carts, orders, s.nextId)
  {
    var s := FindOrCreateCategory(categories, req.category, nextId);
    var p := Overwritten(products[k], req, s.category);
    var ps := products[k := p];
    FindOrCreateCategoryKeepsUnique(categories, req.category, nextId);
    ProductIdsUpdate(products, k, p);
    assert UniqueProductIds(ps) by {
      forall i, j | 0 <= i < j < |ps| ensures ps[i].id != ps[j].id {
        assert ps[i].id == products[i].id && ps[j].id == products[j].id;
      }
    }
    assert CategoriesStored(ps, s.categories) by {
      forall i | 0 <= i < |ps| ensures ps[i].category in s.categories {
        if i != k {
          assert products[i].category in categories;
        }
      }
    }
    assert CartsResolve(carts, ps) by {
      forall i | 0 <= i < |carts| ensures LinesResolve(carts[i].items, ps) {
        assert LinesResolve(carts[i].items, products);
      }
    }
    assert OrdersResolve(orders, ps) by {
      forall i | 0 <= i < |orders| ensures OrderLinesResolve(orders[i].items, ps) {
        assert OrderLinesResolve(orders[i].items, products);
      }
    }
  }

  /** `update`: an unknown id fails before any category is created; otherwise the
      request's fields overwrite the product's, keeping its id and images. Orders,
      whose lines froze their prices, are untouched. */
  method Update(db: Database, id: nat, req: ProductRequest) returns (r: Result<ProductResponse, ServiceError>)
    requires db.Valid()
    modifies db
    ensures db.Valid()
    ensures db.users == old(db.users) && db.carts == old(db.carts) && db.orders == old(db.orders)
    ensures id !in ProductIds(old(db.products)) ==> r == Failure(ProductNotFound) && unchanged(db)
    ensures id in ProductIds(old(db.products)) ==>
      var k := FindProduct(old(db.products), id).value;
      var s := FindOrCreateCategory(old(db.categories), req.category, old(db.nextId));
      db.categories == s.categories && db.nextId == s.nextId &&
      db.products == old(db.products)[k := Overwritten(old(db.products)[k], req, s.category)] &&
      r == Success(ToProductResponse(db.products[k]))
  {
    var found := FindProduct(db.products, id);
    if found.None? {
      return Failure(ProductNotFound);
    }
    var k := found.value;
    UpdateKeepsConsistent(db.users, db.categories, db.products, db.carts, db.orders, db.nextId, k, req);
    var existing := FindCategory(db.categories, req.category);
    var category: Category;
    if existing.Some? {
      category := db.categories[existing.value];
    } else {
      category := Category(db.nextId, req.category);
      db.categories := db.categories + [category];
      db.nextId := db.nextId + 1;
    }
    var product := db.products[k];
    product := product.(name := req.name);
    product := product.(brand := req.brand);
    product := product.(inventory := req.inventory);
    product := product.(price := req.price);
    product := product.(description := req.description);
    product := product.(category := category);
    db.products := db.products[k := product];
    r := Success(ToProductResponse(product));
  }

  /** A delete of an unreferenced product keeps the store consistent. */
  lemma DeleteKeepsConsistent(users: map<string, User>, categories: seq<Category>, products: seq<Product>,
                              carts: seq<Cart>, orders: seq<Order>, nextId: nat, k: nat)
    requires Consistent(users, categories, products, carts, orders, nextId) && k < |products|
    requires !Referenced(carts, orders, products[k].id)
    ensures Consistent(users, categories, products[..k] + products[k + 1..], carts, orders, nextId)
    ensures products[k].id !in ProductIds(products[..k] + products[k + 1..])
  {
    var ps := products[..k] + products[k + 1..];
    var id := products[k].id;
    ProductIdsRemove(products, k);
    forall i | 0 <= i < |ps| ensures ps[i] == products[if i < k then i else i + 1] {
    }
    assert CartsResolve(carts, ps) by {
      forall i, j | 0 <= i < |carts| && 0 <= j < |carts[i].items| ensures carts[i].items[j].productId in ProductIds(ps) {
        assert LinesResolve(carts[i].items, products);
      }
    }
    assert OrdersResolve(orders, ps) by {
      forall i, j | 0 <= i < |orders| && 0 <= j < |orders[i].items| ensures orders[i].items[j].productId in ProductIds(ps) {
        assert OrderLinesResolve(orders[i].items, products);
      }
    }
  }

  /** `delete`: false for an absent id; otherwise the row is deleted and true is
      returned. The database refuses to delete a product that cart or order lines
      still reference (their foreign keys), and then nothing changes. */
  method Delete(db: Database, id: nat) returns (r: Result<bool, ServiceError>)
    requires db.Valid()
    modifies db
    ensures db.Valid()
    ensures db.users == old(db.users) && db.categories == old(db.categories)
    ensures db.carts == old(db.carts) && db.orders == old(db.orders) && db.nextId == old(db.nextId)
    ensures id !in ProductIds(old(db.products)) ==> r == Success(false) && unchanged(db)
    ensures id in ProductIds(old(db.products)) && Referenced(old(db.carts), old(db.orders), id) ==>
      r == Failure(IntegrityViolation) && unchanged(db)
    ensures id in ProductIds(old(db.products)) && !Referenced(old(db.carts), old(db.orders), id) ==>
      var k := FindProduct(old(db.products), id).value;
      r == Success(true) && db.products == old(db.products)[..k] + old(db.products)[k + 1..] &&
      ProductIds(db.products) == ProductIds(old(db.products)) - {id}
  {
    var found := FindProduct(db.products, id);
    if found.None? {
      return Success(false);
    }
    if Referenced(db.carts, db.orders, id) {
      return Failure(IntegrityViolation);
    }
    var k := found.value;
    DeleteKeepsConsistent(db.users, db.categories, db.products, db.carts, db.orders, db.nextId, k);
    ProductIdsRemove(db.products, k);
    db.products := db.products[..k] + db.products[k + 1..];
    r := Success(true);
  }

  /** `findById`: the product's response, or "Product not found". */
  function FindById(products: seq<Product>, id: nat): (r: Result<ProductResponse, ServiceError>)
    ensures r.Failure? <==> id !in ProductIds(products)
    ensures r.Failure? ==> r.error == ProductNotFound
    ensures r.Success? ==> r.value.id == id && exists p :: p in products && p.id == id && r.value == ToProductResponse(p)
  {
    match FindProduct(products, id)
    case None => Failure(ProductNotFound)
    case Some(k) => Success(ToProductResponse(products[k]))
  }

  /** `findAll`: one response per stored product. The query has no ORDER BY; the
      model lists them in insertion order. */
  function FindAll(products: seq<Product>): (r: seq<ProductResponse>)
    ensures |r| == |products|
    ensures forall i :: 0 <= i < |products| ==> r[i] == ToProductResponse(products[i])
  {
    seq(|products|, i requires 0 <= i < |products| => ToProductResponse(products[i]))
  }
}

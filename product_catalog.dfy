/** The in-memory product catalog (InMemoryProductCatalogService): a map from
    product id to product, changed in place. */
module ProductCatalog {
  import opened Wrappers
  import opened Categories
  import opened InventoryModel
  import opened Time

  /** Every product is stored under its own id. */
  predicate KeyedById(products: map<string, Product>)
  {
    forall id :: id in products ==> products[id].productId == id
  }

  /** The map after setting the quantity of `id` to `n`; an unknown id leaves it as it is. */
  function SetQuantity(products: map<string, Product>, id: string, n: Int32): map<string, Product>
  {
    if id in products then products[id := products[id].(availableQuantity := n)] else products
  }

  /** The catalog stored at start-up; `today` is the start-up date. */
  function SampleCatalog(today: Day): map<string, Product>
  {
    map[
      "P1001" := Product("P1001", "Standard Product 1", Standard, 50, None, true),
      "P1002" := Product("P1002", "Standard Product 2", Standard, 10, None, true),
      "P2001" := Product("P2001", "Fresh Milk", Perishable, 20, Some(today + 7), true),
      "P2002" := Product("P2002", "Expired Yogurt", Perishable, 5, Some(today - 1), true),
      "P2003" := Product("P2003", "Fresh Bread", Perishable, 15, Some(today + 3), true),
      "P3001" := Product("P3001", "Digital Book", Digital, 1000, None, true),
      "P3002" := Product("P3002", "Software License", Digital, 500, None, true)]
  }

  class InMemoryProductCatalog {
    var products: map<string, Product>

    ghost predicate Valid()
      reads this
    {
      KeyedById(products)
    }

    /** Start-up: the catalog holds the seven sample products. */
    constructor (today: Day)
      ensures Valid()
      ensures products == SampleCatalog(today)
    {
      products := map[];
      new;
      AddProduct(Product("P1001", "Standard Product 1", Standard, 50, None, true));
      AddProduct(Product("P1002", "Standard Product 2", Standard, 10, None, true));
      AddProduct(Product("P2001", "Fresh Milk", Perishable, 20, Some(today + 7), true));
      AddProduct(Product("P2002", "Expired Yogurt", Perishable, 5, Some(today - 1), true));
      AddProduct(Product("P2003", "Fresh Bread", Perishable, 15, Some(today + 3), true));
      AddProduct(Product("P3001", "Digital Book", Digital, 1000, None, true));
      AddProduct(Product("P3002", "Software License", Digital, 500, None, true));
    }

    /** findProduct: the product stored under `id`, if any. */
    function FindProduct(id: string): (r: Option<Product>)
      reads this
      ensures r.Some? <==> id in products
      ensures r.Some? ==> r.value == products[id]
      ensures Valid() && r.Some? ==> r.value.productId == id
    {
      if id in products then Some(products[id]) else None
    }

    /** getAllProducts: every stored product exactly once, in no particular order. */
    method GetAllProducts() returns (r: seq<Product>)
      requires Valid()
      ensures |r| == |products|
      ensures forall i :: 0 <= i < |r| ==> r[i].productId in products && products[r[i].productId] == r[i]
      ensures forall id :: id in products ==> products[id] in r
      ensures forall i, j :: 0 <= i < j < |r| ==> r[i].productId != r[j].productId
    {
      r := [];
      var rest := products.Keys;
      while rest != {}
        invariant rest <= products.Keys
        invariant |r| + |rest| == |products|
        invariant forall i :: 0 <= i < |r| ==>
          r[i].productId in products && r[i].productId !in rest && products[r[i].productId] == r[i]
        invariant forall id :: id in products && id !in rest ==> products[id] in r
        invariant forall i, j :: 0 <= i < j < |r| ==> r[i].productId != r[j].productId
        decreases rest
      {
        var id :| id in rest;
        r := r + [products[id]];
        rest := rest - {id};
      }
    }

    /** updateProductQuantity: sets the quantity exactly as given, with no bound check. */
    method UpdateProductQuantity(id: string, newQuantity: Int32)
      requires Valid()
      modifies this
      ensures Valid()
      ensures products == SetQuantity(old(products), id, newQuantity)
    {
      var product := FindProduct(id);
      if product.Some? {
        products := products[id := product.value.(availableQuantity := newQuantity)];
      }
    }

    /** addProduct: stores the product under its id, replacing any earlier entry. */
    method AddProduct(product: Product)
      requires Valid()
      modifies this
      ensures Valid()
      ensures products == old(products)[product.productId := product]
    {
      products := products[product.productId := product];
    }

    /** removeProduct: deletes the entry, if there is one. */
    method RemoveProduct(id: string)
      requires Valid()
      modifies this
      ensures Valid()
      ensures products == old(products) - {id}
    {
      products := products - {id};
    }
  }

  // ----- properties of the catalog operations -----

  /** A quantity update touches one field of one entry and nothing else. */
  lemma SetQuantityFrame(products: map<string, Product>, id: string, n: Int32)
    ensures SetQuantity(products, id, n).Keys == products.Keys
    ensures forall k :: k in products && k != id ==> SetQuantity(products, id, n)[k] == products[k]
    ensures id in products ==>
      SetQuantity(products, id, n)[id] == products[id].(availableQuantity := n)
    ensures KeyedById(products) ==> KeyedById(SetQuantity(products, id, n))
  {
  }

  /** Start-up yields seven active products, keyed by id, with the listed
      quantities and expiry dates. */
  lemma SampleCatalogFacts(today: Day)
    ensures var c := SampleCatalog(today);
      && c.Keys == {"P1001", "P1002", "P2001", "P2002", "P2003", "P3001", "P3002"}
      && |c| == 7
      && KeyedById(c)
      && (forall id :: id in c ==> c[id].active)
      && c["P1001"].availableQuantity == 50 && c["P1001"].expirationDate == None
      && c["P1002"].availableQuantity == 10 && c["P1002"].expirationDate == None
      && c["P2001"].availableQuantity == 20 && c["P2001"].expirationDate == Some(today + 7)
      && c["P2002"].availableQuantity == 5 && c["P2002"].expirationDate == Some(today - 1)
      && c["P2003"].availableQuantity == 15 && c["P2003"].expirationDate == Some(today + 3)
      && c["P3001"].availableQuantity == 1000 && c["P3001"].expirationDate == None
      && c["P3002"].availableQuantity == 500 && c["P3002"].expirationDate == None
  {
    var c := SampleCatalog(today);
    assert c.Keys == {"P1001", "P1002", "P2001", "P2002", "P2003", "P3001", "P3002"};
  }
}

/** The product catalog (ProductServiceImpl): a store of products keyed by id whose
    stock is changed only by whole-field updates and by the guarded stock adjustment. */
module Products {
  import opened Outcomes
  import opened JavaInts

  datatype Product = Product(
    id: nat,
    name: string,
    description: Option<string>,
    price: real,
    category: Option<string>,
    stockQuantity: int,
    active: bool)

  datatype ProductRequest = ProductRequest(
    name: string,
    description: Option<string>,
    price: real,
    category: Option<string>,
    stockQuantity: int,
    active: Option<bool>)

  /** The price part of findAll's filter: a price qualifies when it is at least the
      minimum and at most the maximum, each bound applying only when given. */
  predicate InPriceRange(price: real, minPrice: Option<real>, maxPrice: Option<real>) {
    (minPrice.Some? ==> price >= minPrice.value) && (maxPrice.Some? ==> price <= maxPrice.value)
  }

  /** The guard at the start of findAll. */
  function CheckPriceRange(minPrice: Option<real>, maxPrice: Option<real>): (r: Result<()>)
    ensures r.Err? ==> r.error == InvalidPriceRange
  {
    if minPrice.Some? && maxPrice.Some? && minPrice.value > maxPrice.value then Err(InvalidPriceRange)
    else Ok(())
  }

  /** The guard rejects exactly the bounds that no price can satisfy. */
  lemma PriceRangeGuard(minPrice: Option<real>, maxPrice: Option<real>)
    ensures CheckPriceRange(minPrice, maxPrice).Ok? <==>
            exists price :: InPriceRange(price, minPrice, maxPrice)
  {
    if CheckPriceRange(minPrice, maxPrice).Ok? {
      var sample := if minPrice.Some? then minPrice.value
                     else if maxPrice.Some? then maxPrice.value else 0.0;
      assert InPriceRange(sample, minPrice, maxPrice);
    }
  }

  /** The projection (a Java int sum) is negative exactly when the true sum is
      negative or, as written, when a large increase wraps past 2^31 - 1. */
  lemma ProjectedStockNegative(stock: int, delta: int)
    requires 0 <= stock <= MAX_INT && InInt32(delta)
    ensures Int32Add(stock, delta) < 0 <==> stock + delta < 0 || stock + delta > MAX_INT
  {
    if stock + delta > MAX_INT {
      assert Int32Add(stock, delta) == stock + delta - 0x1_0000_0000;
    }
  }

  /** The stock left by one adjustStock call: the projected stock when it is not
      negative, otherwise the stock as it was. From a non-negative stock the result
      is never negative; it is the true sum when that is a non-negative int, and the
      old stock otherwise. */
  function StockAfter(stock: int, delta: int): (r: int)
    requires InInt32(stock) && InInt32(delta)
    ensures InInt32(r)
    ensures 0 <= stock ==> 0 <= r
    ensures 0 <= stock && 0 <= stock + delta <= MAX_INT ==> r == stock + delta
    ensures 0 <= stock && (stock + delta < 0 || stock + delta > MAX_INT) ==> r == stock
  {
    var projected := Int32Add(stock, delta);
    assert 0 <= stock ==> (projected < 0 <==> stock + delta < 0 || stock + delta > MAX_INT) by {
      if 0 <= stock {
        ProjectedStockNegative(stock, delta);
      }
    }
    if projected < 0 then stock else projected
  }

  /** The stock left by a series of adjustStock calls, applied in order. */
  function StockAfterAll(stock: int, deltas: seq<int>): int
    requires 0 <= stock <= MAX_INT && AllInInt32(deltas)
    decreases |deltas|
  {
    if deltas == [] then stock
    else StockAfterAll(StockAfter(stock, deltas[0]), deltas[1..])
  }

  /** Starting from a non-negative stock, no series of adjustments makes it negative. */
  lemma {:induction false} StockNeverNegative(stock: int, deltas: seq<int>)
    requires 0 <= stock <= MAX_INT && AllInInt32(deltas)
    ensures 0 <= StockAfterAll(stock, deltas) <= MAX_INT
    decreases |deltas|
  {
    if deltas != [] {
      StockNeverNegative(StockAfter(stock, deltas[0]), deltas[1..]);
    }
  }

  class ProductService {
    var products: map<nat, Product>
    var nextId: nat

    /** Every product is stored under its own id, below the next id to hand out,
        with a stock that is a non-negative Java int. */
    ghost predicate Valid()
      reads this
    {
      forall id :: id in products ==>
        products[id].id == id && id < nextId && 0 <= products[id].stockQuantity <= MAX_INT
    }

    constructor ()
      ensures Valid() && products == map[]
    {
      products := map[];
      nextId := 1;
    }

    method FindById(id: nat) returns (r: Result<Product>)
      ensures id in products ==> r == Ok(products[id])
      ensures id !in products ==> r == Err(ProductNotFound(id))
    {
      if id in products {
        r := Ok(products[id]);
      } else {
        r := Err(ProductNotFound(id));
      }
    }

    /** Copies name, description and price onto a fresh entity (`blank`, whose other
        fields are the entity's defaults), discards any id it carries and stores it
        under a new id. */
    method Create(request: ProductRequest, blank: Product) returns (created: Product)
      requires Valid() && 0 <= blank.stockQuantity <= MAX_INT
      modifies this
      ensures Valid()
      ensures created == blank.(id := old(nextId), name := request.name,
                                description := request.description, price := request.price)
      ensures old(nextId) !in old(products) && products == old(products)[old(nextId) := created]
    {
      created := blank.(id := nextId, name := request.name,
                        description := request.description, price := request.price);
      products := products[nextId := created];
      nextId := nextId + 1;
    }

    /** Overwrites every editable field; `active` is true only for an explicit TRUE. */
    method Update(id: nat, request: ProductRequest) returns (r: Result<Product>)
      requires Valid() && 0 <= request.stockQuantity <= MAX_INT
      modifies this
      ensures Valid() && nextId == old(nextId)
      ensures id !in old(products) ==> r == Err(ProductNotFound(id)) && products == old(products)
      ensures id in old(products) ==>
                r == Ok(Product(id, request.name, request.description, request.price,
                                request.category, request.stockQuantity, request.active == Some(true))) &&
                products == old(products)[id := r.value]
    {
      if id !in products {
        return Err(ProductNotFound(id));
      }
      var existing := products[id];
      existing := existing.(name := request.name, description := request.description,
                            price := request.price, category := request.category,
                            stockQuantity := request.stockQuantity,
                            active := request.active == Some(true));
      products := products[id := existing];
      r := Ok(existing);
    }

    /** Adds a signed delta to the stock of a product, refusing when the projected
        stock (computed in Java int arithmetic) would be negative. */
    method AdjustStock(id: nat, delta: int) returns (r: Result<Product>)
      requires Valid() && InInt32(delta)
      modifies this
      ensures Valid() && nextId == old(nextId)
      ensures id !in old(products) ==> r == Err(ProductNotFound(id)) && products == old(products)
      ensures id in old(products) ==>
                var stock := old(products[id].stockQuantity);
                id in products && products[id].stockQuantity == StockAfter(stock, delta) &&
                if stock + delta < 0 || stock + delta > MAX_INT then
                  r == Err(InsufficientStock(id, stock, delta)) && products == old(products)
                else
                  r == Ok(old(products[id]).(stockQuantity := stock + delta)) &&
                  products == old(products)[id := r.value]
    {
      if id !in products {
        return Err(ProductNotFound(id));
      }
      var product := products[id];
      var projectedStock := Int32Add(product.stockQuantity, delta);
      ProjectedStockNegative(product.stockQuantity, delta);
      if projectedStock < 0 {
        return Err(InsufficientStock(id, product.stockQuantity, delta));
      }
      product := product.(stockQuantity := projectedStock);
      products := products[id := product];
      r := Ok(product);
    }

    method Delete(id: nat) returns (r: Result<()>)
      requires Valid()
      modifies this
      ensures Valid() && nextId == old(nextId)
      ensures id !in old(products) ==> r == Err(ProductNotFound(id)) && products == old(products)
      ensures id in old(products) ==> r == Ok(()) && products == old(products) - {id}
    {
      if id !in products {
        return Err(ProductNotFound(id));
      }
      products := products - {id};
      r := Ok(());
    }
  }
}

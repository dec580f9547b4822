/** The warehouse's integer stock bookkeeping (`WarehouseServiceImpl`): new products, stock
    increases, the availability check, order assembly, returns and the shipping hand-off. */
module Warehouse {
  import opened Wrappers
  import opened JavaLang

  /** A row of the product table, without its weight and dimensions. */
  datatype WarehouseProduct = WarehouseProduct(productId: Uuid, fragile: bool, quantity: Long)

  /** A row of the booking table, reduced to the fields the service reads or writes. */
  datatype Booking = Booking(orderId: Uuid, deliveryId: Option<Uuid>)

  /** `BookedProductsDto` without its floating-point weight and volume. */
  datatype BookedProductsDto = BookedProductsDto(fragile: bool)

  /** `NewProductInWarehouseRequest`, reduced to the fields stored besides weight and size. */
  datatype NewProductInWarehouseRequest = NewProductInWarehouseRequest(productId: Uuid, fragile: Option<bool>)

  /** `AddProductToWarehouseRequest`; the product id string is given as `UUID.fromString` reads
      it, `None` when that throws `IllegalArgumentException`. */
  datatype AddProductToWarehouseRequest = AddProductToWarehouseRequest(productId: Option<Uuid>, quantity: Int)

  datatype ShippedToDeliveryRequest = ShippedToDeliveryRequest(orderId: Option<Uuid>, deliveryId: Option<Uuid>)

  /** The exceptions the service throws. */
  datatype WarehouseError =
    | SpecifiedProductAlreadyInWarehouse
    | NoSpecifiedProductInWarehouse(missing: set<Uuid>)
    | ProductInShoppingCartLowQuantityInWarehouse(shortfall: map<Uuid, Long>)
    | NoProductsInShoppingCart
    | IllegalArgument
    | NoOrderFound

  type Stock = map<Uuid, WarehouseProduct>

  /** The requested ids that the product table does not hold (the `missingIds` filter). */
  function MissingIds(stock: Stock, ids: set<Uuid>): (missing: set<Uuid>)
    ensures missing == ids - stock.Keys
    ensures missing == {} <==> ids <= stock.Keys
  {
    var missing := set id | id in ids && id !in stock;
    assert missing == {} ==> ids <= stock.Keys by {
      if missing == {} {
        forall id | id in ids ensures id in stock {
          assert id !in missing;
        }
      }
    }
    missing
  }

  /** For each requested product whose stock is below the request, the request minus the stock,
      in `long` arithmetic (the `missingProducts` and `lowQuantityMap` maps). */
  function Shortfalls(stock: Stock, items: map<Uuid, Int>): map<Uuid, Long>
    requires items.Keys <= stock.Keys
  {
    map id | id in items && stock[id].quantity < items[id] :: WrapLong(items[id] - stock[id].quantity)
  }

  /** Whether any requested product is fragile. */
  predicate AnyFragile(stock: Stock, ids: set<Uuid>)
    requires ids <= stock.Keys
  {
    exists id :: id in ids && stock[id].fragile
  }

  /** `checkAvailability` with `calculateCartDetails`, as a function of the product table. */
  function CheckStock(stock: Stock, items: Option<map<Uuid, Int>>): (r: Result<BookedProductsDto, WarehouseError>)
    // a null or empty cart is the empty booking
    ensures items.None? || items.value == map[] ==> r == Ok(BookedProductsDto(false))
    // otherwise the check passes exactly when every product is known and in stock
    ensures items.Some? && items.value != map[] ==>
      (r.Ok? <==> items.value.Keys <= stock.Keys && forall id :: id in items.value ==> items.value[id] <= stock[id].quantity)
    // missing products are reported before low stock, with their ids
    ensures r.Err? && r.error.NoSpecifiedProductInWarehouse? ==>
      r.error.missing == items.value.Keys - stock.Keys && r.error.missing != {}
    ensures items.Some? && !(items.value.Keys <= stock.Keys) ==> r.Err? && r.error.NoSpecifiedProductInWarehouse?
    // low stock reports every short product and only those, with its shortfall
    ensures r.Err? && r.error.ProductInShoppingCartLowQuantityInWarehouse? ==>
      var cart, short := items.value, r.error.shortfall;
      && cart.Keys <= stock.Keys
      && (forall id :: id in short <==> id in cart && stock[id].quantity < cart[id])
      && forall id :: id in short && 0 <= stock[id].quantity ==> short[id] == cart[id] - stock[id].quantity > 0
    // a successful check is fragile exactly when some product in the cart is
    ensures r.Ok? && items.Some? && items.value != map[] ==>
      (r.value.fragile <==> exists id :: id in items.value && id in stock && stock[id].fragile)
    ensures r.Err? ==> r.error.NoSpecifiedProductInWarehouse? || r.error.ProductInShoppingCartLowQuantityInWarehouse?
  {
    if items.None? || items.value == map[] then Ok(BookedProductsDto(false))
    else
      var cart := items.value;
      var missing := MissingIds(stock, cart.Keys);
      if missing != {} then Err(NoSpecifiedProductInWarehouse(missing))
      else
        assert cart.Keys <= stock.Keys;
        var shortfalls := Shortfalls(stock, cart);
        if shortfalls != map[] then
          Err(ProductInShoppingCartLowQuantityInWarehouse(shortfalls))
        else
          assert forall id :: id in cart ==> id !in shortfalls;
          Ok(BookedProductsDto(AnyFragile(stock, cart.Keys)))
  }

  /** The stock after `assemblingProductsForOrder` takes every requested quantity. */
  function Decremented(stock: Stock, items: map<Uuid, Int>): Stock
  {
    map id | id in stock :: if id in items then stock[id].(quantity := WrapLong(stock[id].quantity - items[id])) else stock[id]
  }

  /** `assemblingProductsForOrder`: the new product table and the result. */
  function Assemble(stock: Stock, items: Option<map<Uuid, Int>>): (r: (Stock, Result<BookedProductsDto, WarehouseError>))
    // every failure leaves the stock as it was
    ensures r.1.Err? ==> r.0 == stock
    ensures items.None? || items.value == map[] ==> r.1 == Err(NoProductsInShoppingCart)
    // on a non-empty request it succeeds or fails exactly as the availability check does
    ensures items.Some? && items.value != map[] ==> r.1 == CheckStock(stock, items)
    // success takes exactly the requested amount of every requested product, and nothing else
    ensures r.1.Ok? ==>
      var cart := items.value;
      && r.0.Keys == stock.Keys
      && (forall id :: id in stock && id !in cart ==> r.0[id] == stock[id])
      && (forall id :: id in cart ==> r.0[id].productId == stock[id].productId && r.0[id].fragile == stock[id].fragile)
      && (forall id :: id in cart && 0 <= cart[id] ==> 0 <= r.0[id].quantity == stock[id].quantity - cart[id])
      && (r.1.value.fragile <==> exists id :: id in cart && stock[id].fragile)
  {
    if items.None? || items.value == map[] then (stock, Err(NoProductsInShoppingCart))
    else
      var cart := items.value;
      var missing := MissingIds(stock, cart.Keys);
      if missing != {} then (stock, Err(NoSpecifiedProductInWarehouse(missing)))
      else
        var lowQuantity := Shortfalls(stock, cart);
        if lowQuantity != map[] then (stock, Err(ProductInShoppingCartLowQuantityInWarehouse(lowQuantity)))
        else
          assert forall id :: id in cart ==> id !in lowQuantity;
          (Decremented(stock, cart), Ok(BookedProductsDto(AnyFragile(stock, cart.Keys))))
  }

  /** `returnProductsToWarehouse`: the new product table and the outcome. */
  function ReturnProducts(stock: Stock, returned: Option<map<Uuid, Option<Int>>>): (r: (Stock, Outcome<WarehouseError>))
    ensures r.1.Fail? ==> r.0 == stock
    ensures returned.None? || returned.value == map[] ==> r.1 == Fail(NoProductsInShoppingCart)
    ensures returned.Some? && returned.value != map[] ==>
      (r.1.Pass? <==> returned.value.Keys <= stock.Keys)
    ensures r.1.Fail? && r.1.error.NoSpecifiedProductInWarehouse? ==> r.1.error.missing == returned.value.Keys - stock.Keys
    // strictly positive quantities are added back; null, zero and negative ones are ignored
    ensures r.1.Pass? ==>
      var ret := returned.value;
      && r.0.Keys == stock.Keys
      && forall id :: id in stock ==>
           r.0[id].productId == stock[id].productId && r.0[id].fragile == stock[id].fragile
           && r.0[id].quantity == if id in ret && ret[id].Some? && ret[id].value > 0
                                  then WrapLong(stock[id].quantity + ret[id].value) else stock[id].quantity
  {
    if returned.None? || returned.value == map[] then (stock, Fail(NoProductsInShoppingCart))
    else
      var ret := returned.value;
      var missing := MissingIds(stock, ret.Keys);
      if missing != {} then (stock, Fail(NoSpecifiedProductInWarehouse(missing)))
      else
        (Restocked(stock, ret), Pass)
  }

  /** The stock after `returnProductsToWarehouse` adds back every returned quantity. */
  function Restocked(stock: Stock, returned: map<Uuid, Option<Int>>): Stock
  {
    map id | id in stock :: Returned(stock[id], if id in returned then returned[id] else None)
  }

  /** One product after its return quantity is applied. */
  function Returned(p: WarehouseProduct, q: Option<Int>): WarehouseProduct
  {
    if q.Some? && q.value > 0 then p.(quantity := WrapLong(p.quantity + q.value)) else p
  }

  /** Returning what an assembly took restores the stock, as long as no arithmetic wrapped. */
  lemma ReturnUndoesAssembly(stock: Stock, items: map<Uuid, Int>)
    requires items != map[] && (forall id :: id in items ==> 0 < items[id])
    requires Assemble(stock, Some(items)).1.Ok?
    ensures ReturnProducts(Assemble(stock, Some(items)).0, Some(AsReturn(items))) == (stock, Pass)
  {
    assert items.Keys <= stock.Keys;
    assert Assemble(stock, Some(items)).0 == Decremented(stock, items);
    ReturnDecremented(stock, items);
  }

  /** Every quantity of a request, as a return request. */
  function AsReturn(items: map<Uuid, Int>): (returned: map<Uuid, Option<Int>>)
    ensures returned.Keys == items.Keys
    ensures forall id :: id in items ==> returned[id] == Some(items[id])
  {
    map id | id in items :: Some(items[id])
  }

  lemma {:induction false} ReturnDecremented(stock: Stock, items: map<Uuid, Int>)
    requires items != map[] && items.Keys <= stock.Keys
    requires forall id :: id in items ==> 0 < items[id] <= stock[id].quantity
    ensures ReturnProducts(Decremented(stock, items), Some(AsReturn(items))) == (stock, Pass)
  {
    var after := Decremented(stock, items);
    var returned := AsReturn(items);
    assert returned != map[] by { var id :| id in items; assert id in returned; }
    assert MissingIds(after, returned.Keys) == {};
    var back := Restocked(after, returned);
    forall id | id in stock ensures back[id] == stock[id] {
      if id in items {
        assert after[id].quantity == stock[id].quantity - items[id];
      }
    }
    assert back == stock;
  }

  /** The warehouse: the product and booking tables. */
  class WarehouseServiceImpl {
    var products: Stock
    var bookings: map<Uuid, Booking>

    /** Every row is stored under its own id. */
    ghost predicate Valid()
      reads this
    {
      && (forall id :: id in products ==> products[id].productId == id)
      && (forall id :: id in bookings ==> bookings[id].orderId == id)
    }

    constructor (products: Stock, bookings: map<Uuid, Booking>)
      requires forall id :: id in products ==> products[id].productId == id
      requires forall id :: id in bookings ==> bookings[id].orderId == id
      ensures Valid()
      ensures this.products == products && this.bookings == bookings
    {
      this.products := products;
      this.bookings := bookings;
    }

    /** `addNewProduct`: a known id is refused; otherwise the product is stored with stock 0 and
        the request's fragile flag, a null flag reading as false. */
    method AddNewProduct(request: NewProductInWarehouseRequest) returns (r: Outcome<WarehouseError>)
      requires Valid()
      modifies this
      ensures Valid() && bookings == old(bookings)
      ensures r.Fail? <==> request.productId in old(products)
      ensures r.Fail? ==> r.error == SpecifiedProductAlreadyInWarehouse && products == old(products)
      ensures r.Pass? ==> products == old(products)[request.productId :=
                            WarehouseProduct(request.productId, request.fragile == Some(true), 0)]
    {
      if request.productId in products {
        return Fail(SpecifiedProductAlreadyInWarehouse);
      }
      var fragile := request.fragile.Some? && request.fragile.value;
      products := products[request.productId := WarehouseProduct(request.productId, fragile, 0)];
      r := Pass;
    }

    /** `increaseProductQuantity`: an unreadable or unknown id is refused; otherwise the stock
        grows by the requested quantity in `long` arithmetic and nothing else changes. */
    method IncreaseProductQuantity(request: AddProductToWarehouseRequest) returns (r: Outcome<WarehouseError>)
      requires Valid()
      modifies this
      ensures Valid() && bookings == old(bookings)
      ensures request.productId.None? ==> r == Fail(IllegalArgument)
      ensures request.productId.Some? ==> (r.Fail? <==> request.productId.value !in old(products))
      ensures request.productId.Some? && request.productId.value !in old(products) ==>
        r == Fail(NoSpecifiedProductInWarehouse({request.productId.value}))
      ensures r.Fail? ==> products == old(products)
      ensures r.Pass? ==>
        var id := request.productId.value;
        && products == old(products)[id := old(products)[id].(quantity := WrapLong(old(products)[id].quantity + request.quantity))]
        && (LONG_MIN <= old(products)[id].quantity + request.quantity <= LONG_MAX ==>
              products[id].quantity == old(products)[id].quantity + request.quantity)
    {
      if request.productId.None? {
        return Fail(IllegalArgument);
      }
      var id := request.productId.value;
      if id !in products {
        return Fail(NoSpecifiedProductInWarehouse({id}));
      }
      var product := products[id];
      products := products[id := product.(quantity := WrapLong(product.quantity + request.quantity))];
      r := Pass;
    }

    /** `checkAvailability`: the missing-id filter, then one pass over the cart that collects
        the shortfalls and the fragile flag. It reads the tables and changes nothing. */
    method CheckAvailability(items: Option<map<Uuid, Int>>) returns (r: Result<BookedProductsDto, WarehouseError>)
      ensures r == CheckStock(products, items)
    {
      if items.None? || items.value == map[] {
        return Ok(BookedProductsDto(false));
      }
      var cart := items.value;
      var missingIds := MissingIds(products, cart.Keys);
      if missingIds != {} {
        return Err(NoSpecifiedProductInWarehouse(missingIds));
      }
      var missingProducts: map<Uuid, Long> := map[];
      var fragile := false;
      var remaining := cart.Keys;
      while remaining != {}
        invariant remaining <= cart.Keys <= products.Keys
        invariant forall id :: id in missingProducts <==>
          id in cart && id !in remaining && products[id].quantity < cart[id]
        invariant forall id :: id in missingProducts ==> missingProducts[id] == WrapLong(cart[id] - products[id].quantity)
        invariant fragile <==> exists id :: id in cart && id !in remaining && cart[id] <= products[id].quantity && products[id].fragile
        decreases remaining
      {
        var id :| id in remaining;
        var q := cart[id];
        var product := products[id];
        if product.quantity < q {
          missingProducts := missingProducts[id := WrapLong(q - product.quantity)];
        } else {
          fragile := fragile || product.fragile;
        }
        remaining := remaining - {id};
      }
      assert missingProducts == Shortfalls(products, cart);
      if missingProducts != map[] {
        return Err(ProductInShoppingCartLowQuantityInWarehouse(missingProducts));
      }
      assert forall id :: id in cart ==> id !in missingProducts;
      r := Ok(BookedProductsDto(fragile));
    }

    /** `assemblingProductsForOrder`: the missing-id and low-quantity checks, then a pass that
        takes each requested quantity from its product. */
    method AssemblingProductsForOrder(items: Option<map<Uuid, Int>>) returns (r: Result<BookedProductsDto, WarehouseError>)
      requires Valid()
      modifies this
      ensures Valid() && bookings == old(bookings)
      ensures (products, r) == Assemble(old(products), items)
    {
      if items.None? || items.value == map[] {
        return Err(NoProductsInShoppingCart);
      }
      var cart := items.value;
      var missingIds := MissingIds(products, cart.Keys);
      if missingIds != {} {
        return Err(NoSpecifiedProductInWarehouse(missingIds));
      }
      var lowQuantityMap := Shortfalls(products, cart);
      if lowQuantityMap != map[] {
        return Err(ProductInShoppingCartLowQuantityInWarehouse(lowQuantityMap));
      }
      ghost var before := products;
      var fragile := AnyFragile(products, cart.Keys);
      var remaining := cart.Keys;
      while remaining != {}
        invariant remaining <= cart.Keys <= before.Keys
        invariant products.Keys == before.Keys && bookings == old(bookings)
        invariant forall id :: id in products ==> (products[id] ==
          if id in cart && id !in remaining then before[id].(quantity := WrapLong(before[id].quantity - cart[id])) else before[id])
        decreases remaining
      {
        var id :| id in remaining;
        var requestedQuantity := cart[id];
        var product := products[id];
        products := products[id := product.(quantity := WrapLong(product.quantity - requestedQuantity))];
        remaining := remaining - {id};
      }
      assert products == Decremented(before, cart);
      r := Ok(BookedProductsDto(fragile));
    }

    /** `returnProductsToWarehouse`: the missing-id check, then a pass that adds back each
        strictly positive quantity. */
    method ReturnProductsToWarehouse(returned: Option<map<Uuid, Option<Int>>>) returns (r: Outcome<WarehouseError>)
      requires Valid()
      modifies this
      ensures Valid() && bookings == old(bookings)
      ensures (products, r) == ReturnProducts(old(products), returned)
    {
      if returned.None? || returned.value == map[] {
        return Fail(NoProductsInShoppingCart);
      }
      var ret := returned.value;
      var missingIds := MissingIds(products, ret.Keys);
      if missingIds != {} {
        return Fail(NoSpecifiedProductInWarehouse(missingIds));
      }
      ghost var before := products;
      var remaining := ret.Keys;
      while remaining != {}
        invariant remaining <= ret.Keys <= before.Keys
        invariant products.Keys == before.Keys && bookings == old(bookings)
        invariant forall id :: id in products ==> (products[id] ==
          if id in ret && id !in remaining then Returned(before[id], ret[id]) else before[id])
        decreases remaining
      {
        var id :| id in remaining;
        var returnQuantity := ret[id];
        var product := products[id];
        if returnQuantity.Some? && returnQuantity.value > 0 {
          products := products[id := product.(quantity := WrapLong(product.quantity + returnQuantity.value))];
        }
        remaining := remaining - {id};
      }
      assert products == Restocked(before, ret);
      assert ReturnProducts(before, returned) == (products, Pass);
      r := Pass;
    }

    /** `shippedProductsToWarehouse`: a null request or order id is refused, and so is an order
        without a booking; otherwise the booking records the request's delivery id. */
    method ShippedProductsToWarehouse(request: Option<ShippedToDeliveryRequest>) returns (r: Outcome<WarehouseError>)
      requires Valid()
      modifies this
      ensures Valid() && products == old(products)
      ensures request.None? || request.value.orderId.None? ==> r == Fail(IllegalArgument)
      ensures request.Some? && request.value.orderId.Some? ==>
        (r.Fail? <==> request.value.orderId.value !in old(bookings))
      ensures request.Some? && request.value.orderId.Some? && request.value.orderId.value !in old(bookings) ==>
        r == Fail(NoOrderFound)
      ensures r.Fail? ==> bookings == old(bookings)
      ensures r.Pass? ==>
        var orderId := request.value.orderId.value;
        bookings == old(bookings)[orderId := old(bookings)[orderId].(deliveryId := request.value.deliveryId)]
    {
      if request.None? || request.value.orderId.None? {
        return Fail(IllegalArgument);
      }
      var orderId := request.value.orderId.value;
      if orderId !in bookings {
        return Fail(NoOrderFound);
      }
      var orderBooking := bookings[orderId];
      bookings := bookings[orderId := orderBooking.(deliveryId := request.value.deliveryId)];
      r := Pass;
    }
  }
}

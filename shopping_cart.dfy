/** The shopping cart service (`ShoppingCartServiceImpl`): one cart per user, mapping product ids
    to quantities, that is ACTIVE until the user deactivates it. */
module ShoppingCart {
  import opened Wrappers
  import opened JavaLang

  datatype ShoppingCartState = ACTIVE | DEACTIVATED

  /** A row of the cart table; its generated id is not modelled. The product map is `None`
      where the column holds null. */
  datatype ShoppingCart = ShoppingCart(username: string, state: ShoppingCartState, products: Option<map<Uuid, Int>>)

  datatype ChangeProductQuantityRequest = ChangeProductQuantityRequest(productId: Uuid, newQuantity: Int)

  /** The exceptions the service throws. */
  datatype CartError =
    | NotAuthorized              // NotAuthorizedException
    | CartDeactivated            // IllegalArgumentException
    | WarehouseCheckFailed       // IllegalStateException wrapping the warehouse's refusal
    | AvailabilityRejected       // the warehouse's own exception, not caught
    | CartNotFound               // NotFoundException
    | NoProductsInShoppingCart   // NoProductsInShoppingCartException for an empty cart
    | ProductsNotInCart(missing: seq<Uuid>) // NoProductsInShoppingCartException listing the ids
    | NullPointer                // NullPointerException on a null product map

  /** The cart table, by username. */
  type Carts = map<string, ShoppingCart>

  /** The warehouse's `checkAvailability`: whether it accepts a product map. */
  type WarehouseCheck = map<Uuid, Int> -> bool

  /** `checkUsername`: a null or blank username is not authorized. */
  function CheckUsername(username: Option<string>): (r: Outcome<CartError>)
    ensures r.Pass? <==> username.Some? && exists i :: 0 <= i < |username.value| && !IsWhitespace(username.value[i])
    ensures r.Fail? ==> r.error == NotAuthorized
  {
    if username.None? || IsBlank(username.value) then Fail(NotAuthorized) else Pass
  }

  /** The cart `createShoppingCart` stores. */
  function NewCart(username: string): ShoppingCart
  {
    ShoppingCart(username, ACTIVE, Some(map[]))
  }

  /** The user's products, a null map reading as empty. */
  function ProductsOf(cart: ShoppingCart): map<Uuid, Int>
  {
    if cart.products.None? then map[] else cart.products.value
  }

  /** `findByUsername(username).orElseGet(() -> createShoppingCart(username))`: the table
      afterwards and the cart found or created. */
  function FindOrCreate(carts: Carts, username: string): (r: (Carts, ShoppingCart))
    // the cart returned is the one stored under the username afterwards
    ensures username in r.0 && r.0[username] == r.1
    // only that entry may be added; every other cart is kept
    ensures r.0.Keys == carts.Keys + {username}
    ensures forall v :: v in carts && v != username ==> r.0[v] == carts[v]
    // an existing cart is returned as stored, with the table unchanged
    ensures username in carts ==> r.0 == carts && r.1 == carts[username]
    // otherwise the new cart is the user's, ACTIVE and without products
    ensures username !in carts ==>
      r.1.username == username && r.1.state == ACTIVE && r.1.products == Some(map[])
  {
    if username in carts then (carts, carts[username])
    else (carts[username := NewCart(username)], NewCart(username))
  }

  /** The entries of a request with a non-null, strictly positive quantity. */
  function ValidProducts(products: Option<map<Uuid, Option<Int>>>): (valid: map<Uuid, Int>)
    ensures forall id :: id in valid <==>
      products.Some? && id in products.value && products.value[id].Some? && products.value[id].value > 0
    ensures forall id :: id in valid ==> valid[id] == products.value[id].value
  {
    if products.None? then map[]
    else map id | id in products.value && products.value[id].Some? && products.value[id].value > 0 :: products.value[id].value
  }

  /** The ids of a list that a cart does not hold, in list order (the `missingProducts` filter). */
  function MissingFromCart(ids: seq<Uuid>, products: map<Uuid, Int>): (missing: seq<Uuid>)
    ensures forall x :: x in missing <==> x in ids && x !in products
    ensures |missing| <= |ids|
    ensures missing == [] <==> forall x :: x in ids ==> x in products
  {
    if ids == [] then []
    else
      var rest := MissingFromCart(ids[1..], products);
      assert forall x :: x in ids <==> x == ids[0] || x in ids[1..];
      if ids[0] in products then rest else [ids[0]] + rest
  }

  /** A product map without the listed ids. */
  function Without(products: map<Uuid, Int>, ids: seq<Uuid>): map<Uuid, Int>
  {
    map id | id in products && id !in ids :: products[id]
  }

  /** `getShoppingCart`. */
  function GetCart(carts: Carts, username: Option<string>): (r: (Carts, Result<ShoppingCart, CartError>))
    ensures CheckUsername(username).Fail? ==> r == (carts, Err(NotAuthorized))
    ensures CheckUsername(username).Pass? ==>
      var u := username.value;
      && r.1.Ok? && u in r.0 && r.0[u] == r.1.value
      && r.0.Keys == carts.Keys + {u}
      && (forall v :: v in carts && v != u ==> r.0[v] == carts[v])
      && (u in carts ==> r.0 == carts && r.1.value == carts[u])
      && (u !in carts ==>
            r.1.value.username == u && r.1.value.state == ACTIVE && r.1.value.products == Some(map[]))
  {
    if CheckUsername(username).Fail? then (carts, Err(NotAuthorized))
    else
      var (found, cart) := FindOrCreate(carts, username.value);
      (found, Ok(cart))
  }

  /** `addProductsToShoppingCart`. */
  function AddProducts(carts: Carts, username: Option<string>, products: Option<map<Uuid, Option<Int>>>,
                       accepts: WarehouseCheck): (r: (Carts, Result<ShoppingCart, CartError>))
    ensures CheckUsername(username).Fail? ==> r == (carts, Err(NotAuthorized))
    ensures CheckUsername(username).Pass? ==>
      var u, valid := username.value, ValidProducts(products);
      // only the user's own cart is touched, and it exists afterwards
      && r.0.Keys == carts.Keys + {u}
      && (forall v :: v in carts && v != u ==> r.0[v] == carts[v])
      // a missing cart is created even if the call then fails
      && (r.1.Err? ==> r.0 == FindOrCreate(carts, u).0)
      && (r.1 == Err(CartDeactivated) <==> u in carts && carts[u].state == DEACTIVATED)
      && (r.1 == Err(WarehouseCheckFailed) <==>
            !(u in carts && carts[u].state == DEACTIVATED) && valid != map[] && !accepts(valid))
      && (r.1.Err? ==> r.1.error == CartDeactivated || r.1.error == WarehouseCheckFailed)
      // success overwrites the valid entries and keeps every other one
      && (r.1.Ok? ==>
            var before := ProductsOf(FindOrCreate(carts, u).1);
            && r.1.value == r.0[u] && r.0[u].state == ACTIVE
            && r.0[u].username == FindOrCreate(carts, u).1.username
            && r.0[u].products.Some?
            && (forall id :: id in r.0[u].products.value <==> id in before || id in valid)
            && (forall id :: id in valid ==> r.0[u].products.value[id] == valid[id])
            && (forall id :: id in before && id !in valid ==> r.0[u].products.value[id] == before[id]))
  {
    if CheckUsername(username).Fail? then (carts, Err(NotAuthorized))
    else
      var u := username.value;
      var (found, cart) := FindOrCreate(carts, u);
      if cart.state == DEACTIVATED then (found, Err(CartDeactivated))
      else
        var valid := ValidProducts(products);
        if valid != map[] && !accepts(valid) then (found, Err(WarehouseCheckFailed))
        else
          var saved := cart.(products := Some(ProductsOf(cart) + valid));
          (found[u := saved], Ok(saved))
  }

  /** `deactivateShoppingCart`. */
  function Deactivate(carts: Carts, username: Option<string>): (r: (Carts, Outcome<CartError>))
    ensures CheckUsername(username).Fail? ==> r == (carts, Fail(NotAuthorized))
    ensures CheckUsername(username).Pass? ==>
      var u := username.value;
      // the cart, found or created, is deactivated with its products kept; nothing else changes
      && r.1 == Pass
      && r.0.Keys == carts.Keys + {u}
      && (forall v :: v in carts && v != u ==> r.0[v] == carts[v])
      && r.0[u].state == DEACTIVATED
      && r.0[u].products == (if u in carts then carts[u].products else Some(map[]))
      && r.0[u].username == (if u in carts then carts[u].username else u)
  {
    if CheckUsername(username).Fail? then (carts, Fail(NotAuthorized))
    else
      var u := username.value;
      var (found, cart) := FindOrCreate(carts, u);
      (found[u := cart.(state := DEACTIVATED)], Pass)
  }

  /** `removeProductsFromShoppingCart`. */
  function RemoveProducts(carts: Carts, username: Option<string>, products: seq<Uuid>): (r: (Carts, Result<ShoppingCart, CartError>))
    // every failure leaves the table as it was
    ensures r.1.Err? ==> r.0 == carts
    ensures CheckUsername(username).Fail? ==> r.1 == Err(NotAuthorized)
    ensures CheckUsername(username).Pass? ==>
      var u := username.value;
      && (u !in carts ==> r.1 == Err(CartNotFound))
      && (u in carts ==>
            var held := ProductsOf(carts[u]);
            && (carts[u].state == DEACTIVATED ==> r.1 == Err(CartDeactivated))
            && (carts[u].state == ACTIVE && held == map[] ==> r.1 == Err(NoProductsInShoppingCart))
            // the call succeeds exactly when every listed id is in the active, non-empty cart
            && (r.1.Ok? <==> carts[u].state == ACTIVE && held != map[] && forall x :: x in products ==> x in held)
            && (carts[u].state == ACTIVE && held != map[] && (exists x :: x in products && x !in held) ==>
                  r.1.Err? && r.1.error.ProductsNotInCart?)
            && (r.1.Err? && r.1.error.ProductsNotInCart? ==>
                  r.1.error.missing != [] && forall x :: x in r.1.error.missing <==> x in products && x !in held)
            // success removes exactly the listed ids and keeps everything else
            && (r.1.Ok? ==>
                  && r.0 == carts[u := r.1.value]
                  && r.1.value == carts[u].(products := r.1.value.products)
                  && r.1.value.products.Some?
                  && (forall id :: id in r.1.value.products.value <==> id in held && id !in products)
                  && (forall id :: id in r.1.value.products.value ==> r.1.value.products.value[id] == held[id])))
  {
    if CheckUsername(username).Fail? then (carts, Err(NotAuthorized))
    else
      var u := username.value;
      if u !in carts then (carts, Err(CartNotFound))
      else
        var cart := carts[u];
        if cart.state == DEACTIVATED then (carts, Err(CartDeactivated))
        else
          var held := ProductsOf(cart);
          if held == map[] then (carts, Err(NoProductsInShoppingCart))
          else
            var missing := MissingFromCart(products, held);
            if missing != [] then (carts, Err(ProductsNotInCart(missing)))
            else
              var saved := cart.(products := Some(Without(held, products)));
              (carts[u := saved], Ok(saved))
  }

  /** `changeProductQuantity`: the cart is stored before the warehouse is asked. */
  function ChangeQuantity(carts: Carts, username: Option<string>, request: ChangeProductQuantityRequest,
                          accepts: WarehouseCheck): (r: (Carts, Result<ShoppingCart, CartError>))
    ensures CheckUsername(username).Fail? ==> r == (carts, Err(NotAuthorized))
    ensures CheckUsername(username).Pass? ==>
      var u, id, q := username.value, request.productId, request.newQuantity;
      && (u !in carts ==> r == (carts, Err(CartNotFound)))
      && (u in carts && carts[u].state == DEACTIVATED ==> r == (carts, Err(CartDeactivated)))
      && (u in carts && carts[u].state == ACTIVE && carts[u].products.None? ==> r == (carts, Err(NullPointer)))
      && (u in carts && carts[u].state == ACTIVE && carts[u].products.Some? ==>
            var p := carts[u].products.value[id := q];
            // the new quantity is stored, unfiltered, whatever the warehouse answers
            && r.0 == carts[u := carts[u].(products := Some(p))]
            && r.0[u].products.value[id] == q
            && (forall k :: k in carts[u].products.value && k != id ==> r.0[u].products.value[k] == carts[u].products.value[k])
            && (r.1.Ok? <==> accepts(p))
            && (r.1.Ok? ==> r.1.value == r.0[u])
            && (r.1.Err? ==> r.1.error == AvailabilityRejected))
  {
    if CheckUsername(username).Fail? then (carts, Err(NotAuthorized))
    else
      var u := username.value;
      if u !in carts then (carts, Err(CartNotFound))
      else
        var cart := carts[u];
        if cart.state == DEACTIVATED then (carts, Err(CartDeactivated))
        else if cart.products.None? then (carts, Err(NullPointer))
        else
          var saved := cart.(products := Some(cart.products.value[request.productId := request.newQuantity]));
          (carts[u := saved], if accepts(saved.products.value) then Ok(saved) else Err(AvailabilityRejected))
  }

  /** Reading a cart a second time finds the cart the first read found or created. */
  lemma GetCartStable(carts: Carts, username: Option<string>)
    ensures var first := GetCart(carts, username);
      GetCart(first.0, username) == first
  {
  }

  /** Deactivating twice is deactivating once. */
  lemma DeactivateIdempotent(carts: Carts, username: Option<string>)
    ensures var once := Deactivate(carts, username);
      Deactivate(once.0, username) == once
  {
    var once := Deactivate(carts, username);
    if CheckUsername(username).Pass? {
      var u := username.value;
      assert once.0[u := once.0[u].(state := DEACTIVATED)] == once.0;
    }
  }

  /** A deactivated cart refuses additions, removals and quantity changes, and none of them
      changes the table. */
  lemma DeactivatedCartRefusesChanges(carts: Carts, username: Option<string>, products: Option<map<Uuid, Option<Int>>>,
                                      ids: seq<Uuid>, request: ChangeProductQuantityRequest, accepts: WarehouseCheck)
    requires CheckUsername(username).Pass?
    ensures var after := Deactivate(carts, username).0;
      && AddProducts(after, username, products, accepts) == (after, Err(CartDeactivated))
      && RemoveProducts(after, username, ids) == (after, Err(CartDeactivated))
      && ChangeQuantity(after, username, request, accepts) == (after, Err(CartDeactivated))
  {
  }

  /** Removing the ids just added, none of which the cart held, gives back the products the cart
      had before. */
  lemma {:induction false} RemoveUndoesAdd(carts: Carts, username: Option<string>, products: Option<map<Uuid, Option<Int>>>,
                                           ids: seq<Uuid>, accepts: WarehouseCheck)
    requires AddProducts(carts, username, products, accepts).1.Ok?
    requires ValidProducts(products) != map[]
    requires forall x :: x in ids <==> x in ValidProducts(products)
    requires forall x :: x in ids ==> x !in ProductsOf(FindOrCreate(carts, username.value).1)
    ensures var added := AddProducts(carts, username, products, accepts).0;
      var removed := RemoveProducts(added, username, ids);
      && removed.1.Ok?
      && removed.0[username.value].products == Some(ProductsOf(FindOrCreate(carts, username.value).1))
  {
    var u := username.value;
    var before := ProductsOf(FindOrCreate(carts, u).1);
    var valid := ValidProducts(products);
    var added := AddProducts(carts, username, products, accepts).0;
    var held := ProductsOf(added[u]);
    assert held == before + valid;
    assert held != map[] by { var id :| id in valid; assert id in held; }
    assert MissingFromCart(ids, held) == [];
    assert Without(held, ids) == before;
  }

  /** On an active cart with a product map, setting a strictly positive quantity stores what
      adding that single product would store, whatever the warehouse answers to the change. */
  lemma ChangeAgreesWithAdd(carts: Carts, username: Option<string>, request: ChangeProductQuantityRequest, accepts: WarehouseCheck)
    requires CheckUsername(username).Pass?
    requires username.value in carts && carts[username.value].state == ACTIVE && carts[username.value].products.Some?
    requires request.newQuantity > 0 && accepts(map[request.productId := request.newQuantity])
    ensures ChangeQuantity(carts, username, request, accepts).0 ==
            AddProducts(carts, username, Some(map[request.productId := Some(request.newQuantity)]), accepts).0
  {
    var single := Some(map[request.productId := Some(request.newQuantity)]);
    var held := carts[username.value].products.value;
    assert ValidProducts(single) == map[request.productId := request.newQuantity];
    assert held + map[request.productId := request.newQuantity] == held[request.productId := request.newQuantity];
  }

  /** The cart service and its cart table; the warehouse client is a fixed check. */
  class ShoppingCartServiceImpl {
    var carts: Carts
    const warehouseApi: WarehouseCheck

    /** Every cart is stored under its own username. */
    ghost predicate Valid()
      reads this
    {
      forall u :: u in carts ==> carts[u].username == u
    }

    constructor (carts: Carts, warehouseApi: WarehouseCheck)
      requires forall u :: u in carts ==> carts[u].username == u
      ensures Valid()
      ensures this.carts == carts && this.warehouseApi == warehouseApi
    {
      this.carts := carts;
      this.warehouseApi := warehouseApi;
    }

    /** `createShoppingCart`: stores an ACTIVE cart with no products. */
    method CreateShoppingCart(username: string) returns (created: ShoppingCart)
      modifies this
      ensures carts == old(carts)[username := NewCart(username)] && created == NewCart(username)
    {
      created := NewCart(username);
      carts := carts[username := created];
    }

    /** The user's cart, created when there is none. */
    method FindOrCreateCart(username: string) returns (cart: ShoppingCart)
      modifies this
      ensures (carts, cart) == FindOrCreate(old(carts), username)
    {
      if username in carts {
        cart := carts[username];
      } else {
        cart := CreateShoppingCart(username);
      }
    }

    method GetShoppingCart(username: Option<string>) returns (r: Result<ShoppingCart, CartError>)
      requires Valid()
      modifies this
      ensures Valid()
      ensures (carts, r) == GetCart(old(carts), username)
    {
      if CheckUsername(username).Fail? {
        return Err(NotAuthorized);
      }
      var shoppingCart := FindOrCreateCart(username.value);
      r := Ok(shoppingCart);
    }

    method AddProductsToShoppingCart(username: Option<string>, products: Option<map<Uuid, Option<Int>>>)
      returns (r: Result<ShoppingCart, CartError>)
      requires Valid()
      modifies this
      ensures Valid()
      ensures (carts, r) == AddProducts(old(carts), username, products, warehouseApi)
    {
      if CheckUsername(username).Fail? {
        return Err(NotAuthorized);
      }
      var u := username.value;
      var shoppingCart := FindOrCreateCart(u);
      if shoppingCart.state == DEACTIVATED {
        return Err(CartDeactivated);
      }
      var cartProducts := ProductsOf(shoppingCart);
      var validProducts := ValidProducts(products);
      if validProducts != map[] {
        if !warehouseApi(validProducts) {
          return Err(WarehouseCheckFailed);
        }
        cartProducts := cartProducts + validProducts;
      } else {
        assert cartProducts + validProducts == cartProducts;
      }
      shoppingCart := shoppingCart.(products := Some(cartProducts));
      carts := carts[u := shoppingCart];
      r := Ok(shoppingCart);
    }

    method DeactivateShoppingCart(username: Option<string>) returns (r: Outcome<CartError>)
      requires Valid()
      modifies this
      ensures Valid()
      ensures (carts, r) == Deactivate(old(carts), username)
    {
      if CheckUsername(username).Fail? {
        return Fail(NotAuthorized);
      }
      var u := username.value;
      var shoppingCart := FindOrCreateCart(u);
      shoppingCart := shoppingCart.(state := DEACTIVATED);
      carts := carts[u := shoppingCart];
      r := Pass;
    }

    /** The listed ids are taken out of a copy of the product map one at a time. */
    method RemoveProductsFromShoppingCart(username: Option<string>, products: seq<Uuid>)
      returns (r: Result<ShoppingCart, CartError>)
      requires Valid()
      modifies this
      ensures Valid()
      ensures (carts, r) == RemoveProducts(old(carts), username, products)
    {
      if CheckUsername(username).Fail? {
        return Err(NotAuthorized);
      }
      var u := username.value;
      if u !in carts {
        return Err(CartNotFound);
      }
      var shoppingCart := carts[u];
      if shoppingCart.state == DEACTIVATED {
        return Err(CartDeactivated);
      }
      var cartProducts := ProductsOf(shoppingCart);
      if cartProducts == map[] {
        return Err(NoProductsInShoppingCart);
      }
      var missingProducts := MissingFromCart(products, cartProducts);
      if missingProducts != [] {
        return Err(ProductsNotInCart(missingProducts));
      }
      var updatedProducts := cartProducts;
      var i := 0;
      while i < |products|
        invariant 0 <= i <= |products|
        invariant forall id :: id in updatedProducts <==> id in cartProducts && id !in products[..i]
        invariant forall id :: id in updatedProducts ==> updatedProducts[id] == cartProducts[id]
      {
        assert products[..i + 1] == products[..i] + [products[i]];
        updatedProducts := updatedProducts - {products[i]};
        i := i + 1;
      }
      assert products[..i] == products;
      assert updatedProducts == Without(cartProducts, products);
      shoppingCart := shoppingCart.(products := Some(updatedProducts));
      carts := carts[u := shoppingCart];
      r := Ok(shoppingCart);
    }

    method ChangeProductQuantity(username: Option<string>, request: ChangeProductQuantityRequest)
      returns (r: Result<ShoppingCart, CartError>)
      requires Valid()
      modifies this
      ensures Valid()
      ensures (carts, r) == ChangeQuantity(old(carts), username, request, warehouseApi)
    {
      if CheckUsername(username).Fail? {
        return Err(NotAuthorized);
      }
      var u := username.value;
      if u !in carts {
        return Err(CartNotFound);
      }
      var shoppingCart := carts[u];
      if shoppingCart.state == DEACTIVATED {
        return Err(CartDeactivated);
      }
      if shoppingCart.products.None? {
        return Err(NullPointer);
      }
      shoppingCart := shoppingCart.(products := Some(shoppingCart.products.value[request.productId := request.newQuantity]));
      carts := carts[u := shoppingCart];
      if !warehouseApi(shoppingCart.products.value) {
        return Err(AvailabilityRejected);
      }
      r := Ok(shoppingCart);
    }
  }
}

/**
 * The point of sale (the `pos` object of app.js:117-320): the cart, the product
 * cache and the discount field, and checkout against the store.
 */
module Pos {
  import opened Wrappers
  import opened Records
  import opened CartLines
  import opened Catalog

  // ---------------------------------------------------------------------------
  // Stock adjustment at checkout (app.js:279-285)

  /** One pass of the stock loop: a product that still exists loses the line's quantity. */
  function Decremented(products: map<int, Product>, l: Line): map<int, Product> {
    if l.productId in products then
      products[l.productId := products[l.productId].(stockQuantity := products[l.productId].stockQuantity - l.quantity)]
    else products
  }

  /** The products after the stock loop has run over `lines` in order. */
  function Restocked(products: map<int, Product>, lines: seq<Line>): map<int, Product>
    decreases |lines|
  {
    if lines == [] then products
    else Decremented(Restocked(products, lines[..|lines| - 1]), lines[|lines| - 1])
  }

  /**
   * Whatever the lines, no product is created or deleted, only stock changes, and
   * each product loses exactly the units the lines hold of it.
   */
  lemma {:induction false} RestockedAt(products: map<int, Product>, lines: seq<Line>, x: int)
    ensures x in Restocked(products, lines) <==> x in products
    ensures x in products ==>
      Restocked(products, lines)[x] ==
        products[x].(stockQuantity := products[x].stockQuantity - Quantity(lines, x))
    decreases |lines|
  {
    if lines != [] {
      RestockedAt(products, lines[..|lines| - 1], x);
    }
  }

  lemma {:induction false} RestockedKeys(products: map<int, Product>, lines: seq<Line>)
    ensures Restocked(products, lines).Keys == products.Keys
    decreases |lines|
  {
    if lines != [] {
      RestockedKeys(products, lines[..|lines| - 1]);
    }
  }

  /**
   * For a cart with one line per product: every referenced product that still
   * exists loses that line's quantity, and every other product is untouched.
   */
  lemma {:induction false} CheckoutStock(products: map<int, Product>, lines: seq<Line>)
    requires UniqueIds(lines)
    ensures Restocked(products, lines).Keys == products.Keys
    ensures forall k :: 0 <= k < |lines| && lines[k].productId in products ==>
      Restocked(products, lines)[lines[k].productId] ==
        products[lines[k].productId].(stockQuantity := products[lines[k].productId].stockQuantity - lines[k].quantity)
    ensures forall x :: x in products && (forall k :: 0 <= k < |lines| ==> lines[k].productId != x) ==>
      Restocked(products, lines)[x] == products[x]
  {
    RestockedKeys(products, lines);
    forall k | 0 <= k < |lines| && lines[k].productId in products
      ensures Restocked(products, lines)[lines[k].productId] ==
        products[lines[k].productId].(stockQuantity := products[lines[k].productId].stockQuantity - lines[k].quantity)
    {
      RestockedAt(products, lines, lines[k].productId);
      QuantityOfLine(lines, k);
    }
    forall x | x in products && (forall k :: 0 <= k < |lines| ==> lines[k].productId != x)
      ensures Restocked(products, lines)[x] == products[x]
    {
      RestockedAt(products, lines, x);
      QuantityAbsent(lines, x);
    }
  }

  // ---------------------------------------------------------------------------
  // The session

  datatype CheckoutOutcome = CartEmpty | Committed(sale: Sale)

  class PointOfSale {
    var cart: seq<Line>
    var productsCache: seq<Product>
    /** The parsed discount field of the cart panel; None when blank or not a number. */
    var discountEntry: Option<int>

    ghost predicate Valid()
      reads this
    {
      ValidCart(cart)
    }

    constructor ()
      ensures Valid()
      ensures cart == [] && productsCache == [] && discountEntry == None
    {
      cart := [];
      productsCache := [];
      discountEntry := None;
    }

    /**
     * `renderProducts(category, searchTerm)` (app.js:125-139): refill an empty cache
     * with `fetched` (what the store lists), then filter it.
     */
    method RenderProducts(fetched: seq<Product>, category: string, searchTerm: string)
      returns (shown: seq<Product>)
      modifies this
      ensures productsCache == if old(productsCache) == [] then fetched else old(productsCache)
      ensures cart == old(cart) && discountEntry == old(discountEntry)
      ensures shown == Visible(productsCache, category, searchTerm)
    {
      if productsCache == [] {
        productsCache := fetched;
      }
      shown := Visible(productsCache, category, searchTerm);
    }

    /** `addToCart(productId)` (app.js:157-179). */
    method AddToCart(productId: int)
      requires Valid()
      modifies this
      ensures Valid()
      ensures cart == Added(old(cart), productsCache, productId)
      ensures productsCache == old(productsCache) && discountEntry == old(discountEntry)
    {
      var found := ProductIndex(productsCache, productId);
      if found.None? {
        return;
      }
      var product := productsCache[found.value];
      var existing := LineIndex(cart, productId);
      if existing.Some? {
        var k := existing.value;
        cart := cart[k := cart[k].(quantity := cart[k].quantity + 1)];
        cart := cart[k := cart[k].(total := cart[k].quantity * cart[k].price)];
      } else {
        cart := cart + [Line(product.id, product.name, product.sellingPrice, 1, product.sellingPrice)];
      }
    }

    /** `removeFromCart(index)` (app.js:181-184). */
    method RemoveFromCart(index: int)
      requires Valid()
      modifies this
      ensures Valid()
      ensures cart == Spliced(old(cart), index)
      ensures productsCache == old(productsCache) && discountEntry == old(discountEntry)
    {
      cart := Spliced(cart, index);
    }

    /** `updateQuantity(index, change)` (app.js:186-195); the source throws for an index out of range. */
    method UpdateQuantity(index: int, change: int)
      requires Valid()
      requires 0 <= index < |cart|
      modifies this
      ensures Valid()
      ensures cart == Adjusted(old(cart), index, change)
      ensures productsCache == old(productsCache) && discountEntry == old(discountEntry)
    {
      var item := cart[index];
      item := item.(quantity := item.quantity + change);
      if item.quantity <= 0 {
        cart := Removed(cart, index);
      } else {
        item := item.(total := item.quantity * item.price);
        cart := cart[index := item];
      }
    }

    /** `clearCart()` (app.js:238-242): empty the cart and blank the discount field. */
    method ClearCart()
      modifies this
      ensures Valid()
      ensures cart == [] && discountEntry == None && productsCache == old(productsCache)
    {
      cart := [];
      discountEntry := None;
    }

    /** `checkout()` (app.js:257-300), on the path where every store call succeeds. */
    method Checkout(store: Store, now: int) returns (outcome: CheckoutOutcome)
      requires Valid()
      modifies this, store
      ensures Valid()
      // an empty cart is refused and nothing changes
      ensures old(cart) == [] ==>
        && outcome == CartEmpty
        && store.sales == old(store.sales) && store.products == old(store.products)
        && cart == [] && productsCache == old(productsCache) && discountEntry == old(discountEntry)
      // otherwise one sale is recorded, stock is adjusted, the cart and the cache are emptied
      ensures old(cart) != [] ==>
        var t := CartTotals(old(cart), old(discountEntry));
        var sale := Sale(now, old(cart), t.subtotal, t.discount, t.total, "cash");
        && outcome == Committed(sale)
        && store.sales == old(store.sales) + [sale]
        && store.products == Restocked(old(store.products), old(cart))
        && cart == [] && discountEntry == None && productsCache == []
    {
      if cart == [] {
        return CartEmpty;
      }
      var t := CartTotals(cart, discountEntry);
      var sale := Sale(now, cart, t.subtotal, t.discount, t.total, "cash");
      store.sales := store.sales + [sale];

      var items := cart;
      var i := 0;
      while i < |items|
        modifies store
        invariant 0 <= i <= |items|
        invariant store.sales == old(store.sales) + [sale]
        invariant store.products == Restocked(old(store.products), items[..i])
      {
        var item := items[i];
        if item.productId in store.products {
          var product := store.products[item.productId];
          store.products := store.products[item.productId := product.(stockQuantity := product.stockQuantity - item.quantity)];
        }
        assert items[..i + 1][..i] == items[..i];
        i := i + 1;
      }
      assert items[..|items|] == items;

      ClearCart();
      productsCache := [];
      outcome := Committed(sale);
    }
  }
}

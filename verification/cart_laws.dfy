/**
 * How the three operations relate to one another: which undo which, which
 * can be repeated harmlessly, and which cannot.
 */
module CartLaws {
  import opened Results
  import opened CartModel
  import opened CartProvider

  /** The lookup depends only on the ids of the lines; it follows from the
      lookup's first-match contract. */
  lemma FindIndexSameIds(a: Cart, b: Cart, id: int)
    requires |a| == |b|
    requires forall j :: 0 <= j < |a| ==> a[j].id == b[j].id
    ensures FindIndex(a, id) == FindIndex(b, id)
  {
  }

  /** Adding a product the cart does not hold and then removing it gives back
      the original cart. */
  lemma AddThenRemoveRestores(cart: Cart, productId: int, stock: Result<Stock>, product: Result<CatalogProduct>)
    requires !InCart(cart, productId)
    requires product.Ok? ==> product.value.id == productId
    requires AddProduct(cart, productId, stock, product).Ok?
    ensures RemoveProduct(AddProduct(cart, productId, stock, product).value, productId) == Ok(cart)
  {
    var added := AddProduct(cart, productId, stock, product).value;
    assert Appended(cart, added, Line(product.value, 1));
    var k := FindIndex(added, productId);
    assert k == |cart| by {
      assert added[|cart|].id == productId;
    }
    var removed := RemoveProduct(added, productId).value;
    assert RemovedAt(added, removed, k);
    assert removed == cart;
  }

  /** Adding one more unit of a product already in the cart is undone by
      setting its quantity back to what it was. */
  lemma AddThenUpdateRestores(cart: Cart, productId: int, stock: Result<Stock>, product: Result<CatalogProduct>)
    requires InCart(cart, productId)
    requires cart[FindIndex(cart, productId)].amount >= 1
    requires AddProduct(cart, productId, stock, product).Ok?
    ensures var added := AddProduct(cart, productId, stock, product).value;
            UpdateProductAmount(added, productId, cart[FindIndex(cart, productId)].amount, stock) == Ok(cart)
  {
    var added := AddProduct(cart, productId, stock, product).value;
    var k := FindIndex(cart, productId);
    assert Incremented(cart, added, k);
    FindIndexSameIds(added, cart, productId);
    var back := UpdateProductAmount(added, productId, cart[k].amount, stock).value;
    assert AmountSet(added, back, k, cart[k].amount);
    assert back == cart;
  }

  /** Setting a quantity twice in a row is the same as setting it once. */
  lemma UpdateIdempotent(cart: Cart, productId: int, amount: int, stock: Result<Stock>)
    requires UpdateProductAmount(cart, productId, amount, stock).Ok?
    ensures var once := UpdateProductAmount(cart, productId, amount, stock).value;
            UpdateProductAmount(once, productId, amount, stock) == Ok(once)
  {
    var once := UpdateProductAmount(cart, productId, amount, stock).value;
    var k := FindIndex(cart, productId);
    assert AmountSet(cart, once, k, amount);
    FindIndexSameIds(once, cart, productId);
    var twice := UpdateProductAmount(once, productId, amount, stock).value;
    assert AmountSet(once, twice, k, amount);
    assert twice == once;
  }

  /** Of two successive quantity updates of the same product, the second one
      decides: the first leaves no trace. */
  lemma UpdateLastWins(cart: Cart, productId: int, first: int, second: int, stock1: Result<Stock>, stock2: Result<Stock>)
    requires UpdateProductAmount(cart, productId, first, stock1).Ok?
    ensures var mid := UpdateProductAmount(cart, productId, first, stock1).value;
            UpdateProductAmount(mid, productId, second, stock2) == UpdateProductAmount(cart, productId, second, stock2)
  {
    var mid := UpdateProductAmount(cart, productId, first, stock1).value;
    var k := FindIndex(cart, productId);
    assert AmountSet(cart, mid, k, first);
    FindIndexSameIds(mid, cart, productId);
    var direct := UpdateProductAmount(cart, productId, second, stock2);
    var chained := UpdateProductAmount(mid, productId, second, stock2);
    if direct.Ok? {
      assert AmountSet(cart, direct.value, k, second);
      assert AmountSet(mid, chained.value, k, second);
      assert chained.value == direct.value;
    }
  }

  /** Adding is not idempotent: two successful adds of a product already in
      the cart raise its quantity by two. */
  lemma AddTwiceAddsTwo(cart: Cart, productId: int, stock: Result<Stock>, product: Result<CatalogProduct>)
    requires InCart(cart, productId)
    requires AddProduct(cart, productId, stock, product).Ok?
    requires AddProduct(AddProduct(cart, productId, stock, product).value, productId, stock, product).Ok?
    ensures var once := AddProduct(cart, productId, stock, product).value;
            var twice := AddProduct(once, productId, stock, product).value;
            twice[FindIndex(cart, productId)].amount == cart[FindIndex(cart, productId)].amount + 2
  {
    var once := AddProduct(cart, productId, stock, product).value;
    var k := FindIndex(cart, productId);
    assert Incremented(cart, once, k);
    FindIndexSameIds(once, cart, productId);
    assert InCart(once, productId);
    var twice := AddProduct(once, productId, stock, product).value;
    assert Incremented(once, twice, k);
  }
}

/**
 * The cart shape (one line per product, every quantity at least one) is not
 * checked when a cart is restored from storage, so it is not something the
 * operations establish. What they do guarantee is that a well-formed cart
 * stays well-formed.
 */
module CartInvariants {
  import opened Results
  import opened CartModel
  import opened CartProvider

  /** The catalog answered with the product that was asked for. The new line
      takes its id from the catalog record, not from the request. */
  predicate CatalogAnswers(productId: int, product: Result<CatalogProduct>) {
    product.Ok? ==> product.value.id == productId
  }

  /** Adding keeps the cart well-formed, provided the catalog's record has the
      requested id. */
  lemma AddPreservesWellFormed(cart: Cart, productId: int, stock: Result<Stock>, product: Result<CatalogProduct>)
    requires WellFormed(cart)
    requires CatalogAnswers(productId, product)
    requires AddProduct(cart, productId, stock, product).Ok?
    ensures WellFormed(AddProduct(cart, productId, stock, product).value)
  {
    var after := AddProduct(cart, productId, stock, product).value;
    if InCart(cart, productId) {
      assert Incremented(cart, after, FindIndex(cart, productId));
    } else {
      assert Appended(cart, after, Line(product.value, 1));
    }
  }

  /** Removing keeps the cart well-formed. */
  lemma RemovePreservesWellFormed(cart: Cart, productId: int)
    requires WellFormed(cart)
    requires RemoveProduct(cart, productId).Ok?
    ensures WellFormed(RemoveProduct(cart, productId).value)
  {
    var after := RemoveProduct(cart, productId).value;
    var k := FindIndex(cart, productId);
    assert RemovedAt(cart, after, k);
    forall i, j | 0 <= i < j < |after|
      ensures after[i].id != after[j].id
    {
      var i' := if i < k then i else i + 1;
      var j' := if j < k then j else j + 1;
      assert after[i] == cart[i'] && after[j] == cart[j'];
    }
  }

  /** Updating keeps the cart well-formed: the new quantity passed the
      "at least one" validation. */
  lemma UpdatePreservesWellFormed(cart: Cart, productId: int, amount: int, stock: Result<Stock>)
    requires WellFormed(cart)
    requires UpdateProductAmount(cart, productId, amount, stock).Ok?
    ensures WellFormed(UpdateProductAmount(cart, productId, amount, stock).value)
  {
    var after := UpdateProductAmount(cart, productId, amount, stock).value;
    assert AmountSet(cart, after, FindIndex(cart, productId), amount);
  }

  /** Without the catalog assumption adding can break uniqueness: a catalog
      record whose id differs from the request lands as a second line for a
      product already in the cart. */
  lemma CatalogMismatchBreaksUniqueness()
    ensures var d := Details("", 0.0, "");
            var cart := [Product(7, d, 1)];
            var r := AddProduct(cart, 8, Ok(Stock(8, 5)), Ok(CatalogProduct(7, d)));
            WellFormed(cart) && r.Ok? && !UniqueIds(r.value)
  {
    var d := Details("", 0.0, "");
    var cart := [Product(7, d, 1)];
    assert !InCart(cart, 8);
    var r := AddProduct(cart, 8, Ok(Stock(8, 5)), Ok(CatalogProduct(7, d)));
    assert Appended(cart, r.value, Product(7, d, 1));
  }
}

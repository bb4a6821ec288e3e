/**
 * An independent, order-free view of the cart: how many units of each
 * product it holds. On a cart with one line per product, every operation is
 * the corresponding update of this map, which is the behaviour a shopper
 * expects regardless of how the lines are laid out.
 */
module CartView {
  import opened Results
  import opened CartModel
  import opened CartProvider

  /** Product id to quantity; a later line for the same id wins. */
  function Quantities(cart: Cart): map<int, int>
    decreases |cart|
  {
    if |cart| == 0 then map[]
    else
      var last := cart[|cart| - 1];
      Quantities(cart[..|cart| - 1])[last.id := last.amount]
  }

  /** The view has an entry exactly for the products in the cart. */
  lemma {:induction false} QuantitiesKeys(cart: Cart, id: int)
    ensures id in Quantities(cart) <==> InCart(cart, id)
    decreases |cart|
  {
    if |cart| > 0 {
      var init := cart[..|cart| - 1];
      QuantitiesKeys(init, id);
      if InCart(init, id) {
        var i :| 0 <= i < |init| && init[i].id == id;
        assert cart[i].id == id;
      }
      if InCart(cart, id) && cart[|cart| - 1].id != id {
        var i :| 0 <= i < |cart| && cart[i].id == id;
        assert init[i].id == id;
      }
    }
  }

  /** On a cart with unique ids the view holds each line's quantity. */
  lemma {:induction false} QuantitiesAt(cart: Cart, i: int)
    requires UniqueIds(cart)
    requires 0 <= i < |cart|
    ensures cart[i].id in Quantities(cart)
    ensures Quantities(cart)[cart[i].id] == cart[i].amount
    decreases |cart|
  {
    if i < |cart| - 1 {
      var init := cart[..|cart| - 1];
      assert init[i] == cart[i];
      QuantitiesAt(init, i);
    }
  }

  /** A map that agrees with every line of a unique-id cart and has no other
      keys is its view. */
  lemma QuantitiesEqual(cart: Cart, m: map<int, int>)
    requires UniqueIds(cart)
    requires forall i :: 0 <= i < |cart| ==> cart[i].id in m && m[cart[i].id] == cart[i].amount
    requires forall id :: id in m ==> InCart(cart, id)
    ensures Quantities(cart) == m
  {
    forall id | id in m
      ensures id in Quantities(cart) && Quantities(cart)[id] == m[id]
    {
      var i :| 0 <= i < |cart| && cart[i].id == id;
      QuantitiesAt(cart, i);
    }
    forall id | id in Quantities(cart)
      ensures id in m
    {
      QuantitiesKeys(cart, id);
      var i :| 0 <= i < |cart| && cart[i].id == id;
    }
  }

  /** Setting the quantity of one line of a unique-id cart sets that
      product's entry of the view and nothing else. */
  lemma AmountSetView(before: Cart, after: Cart, k: int, n: int)
    requires UniqueIds(before)
    requires AmountSet(before, after, k, n)
    ensures Quantities(after) == Quantities(before)[before[k].id := n]
  {
    var m := Quantities(before)[before[k].id := n];
    forall i | 0 <= i < |after|
      ensures after[i].id in m && m[after[i].id] == after[i].amount
    {
      if i != k {
        QuantitiesAt(before, i);
      }
    }
    forall id | id in m
      ensures InCart(after, id)
    {
      QuantitiesKeys(before, id);
      var i :| 0 <= i < |before| && before[i].id == id;
      assert after[i].id == id;
    }
    QuantitiesEqual(after, m);
  }

  /** Appending a line for a new product records its quantity and nothing else. */
  lemma AppendedView(before: Cart, after: Cart, line: Product)
    requires Appended(before, after, line)
    ensures Quantities(after) == Quantities(before)[line.id := line.amount]
  {
    assert after[..|after| - 1] == before;
  }

  /** The view after one more unit of `id`: raised by one when the cart had
      the product, recorded as 1 when it did not. */
  lemma OneMoreView(before: Cart, after: Cart, id: int, line: Product)
    requires UniqueIds(before)
    requires InCart(before, id) ==> Incremented(before, after, FindIndex(before, id))
    requires !InCart(before, id) ==> Appended(before, after, line) && line.id == id && line.amount == 1
    ensures var q := Quantities(before);
            Quantities(after) == q[id := if id in q then q[id] + 1 else 1]
  {
    QuantitiesKeys(before, id);
    if InCart(before, id) {
      var k := FindIndex(before, id);
      QuantitiesAt(before, k);
      AmountSetView(before, after, k, before[k].amount + 1);
    } else {
      AppendedView(before, after, line);
    }
  }

  /** Adding a product raises its quantity by one, or records it with one
      unit when it was not in the cart; no other product's quantity moves. */
  lemma AddRefinesView(cart: Cart, productId: int, stock: Result<Stock>, product: Result<CatalogProduct>)
    requires UniqueIds(cart)
    requires product.Ok? ==> product.value.id == productId
    requires AddProduct(cart, productId, stock, product).Ok?
    ensures var q := Quantities(cart);
            Quantities(AddProduct(cart, productId, stock, product).value)
              == q[productId := if productId in q then q[productId] + 1 else 1]
  {
    var after := AddProduct(cart, productId, stock, product).value;
    var line := if product.Ok? then Line(product.value, 1) else Product(productId, Details("", 0.0, ""), 1);
    OneMoreView(cart, after, productId, line);
  }

  /** Removing a product drops exactly its entry from the view. */
  lemma RemoveRefinesView(cart: Cart, productId: int)
    requires UniqueIds(cart)
    requires RemoveProduct(cart, productId).Ok?
    ensures Quantities(RemoveProduct(cart, productId).value) == Quantities(cart) - {productId}
  {
    var after := RemoveProduct(cart, productId).value;
    var k := FindIndex(cart, productId);
    var m := Quantities(cart) - {productId};
    forall i | 0 <= i < |after|
      ensures after[i].id in m && m[after[i].id] == after[i].amount
    {
      var j := if i < k then i else i + 1;
      assert after[i] == cart[j];
      QuantitiesAt(cart, j);
    }
    forall id | id in m
      ensures InCart(after, id)
    {
      QuantitiesKeys(cart, id);
      var j :| 0 <= j < |cart| && cart[j].id == id;
      if j < k {
        assert after[j].id == id;
      } else {
        assert after[j - 1].id == id;
      }
    }
    QuantitiesEqual(after, m);
  }

  /** Updating a product's amount sets exactly its entry in the view. */
  lemma UpdateRefinesView(cart: Cart, productId: int, amount: int, stock: Result<Stock>)
    requires UniqueIds(cart)
    requires UpdateProductAmount(cart, productId, amount, stock).Ok?
    ensures Quantities(UpdateProductAmount(cart, productId, amount, stock).value)
              == Quantities(cart)[productId := amount]
  {
    var after := UpdateProductAmount(cart, productId, amount, stock).value;
    AmountSetView(cart, after, FindIndex(cart, productId), amount);
  }
}

/**
 * The data of the storefront cart: catalog products, stock records and cart
 * lines, plus the first-match lookup every cart operation starts with.
 */
module CartModel {

  /** The descriptive fields of a catalog product (title, price, image). The
      cart never inspects them; they only travel with the line. */
  datatype Details = Details(title: string, price: real, image: string)

  /** A product as the catalog returns it: `GET products/{id}`. */
  datatype CatalogProduct = CatalogProduct(id: int, details: Details)

  /** The available quantity of a product as the stock service returns it:
      `GET stock/{id}`. */
  datatype Stock = Stock(id: int, amount: int)

  /** A cart line: a catalog product with the quantity held in the cart. */
  datatype Product = Product(id: int, details: Details, amount: int)

  /** The cart: line items in insertion (= display) order. */
  type Cart = seq<Product>

  /** `{...product, amount}`: the catalog record extended with a quantity. */
  function Line(p: CatalogProduct, amount: int): Product {
    Product(p.id, p.details, amount)
  }

  /** Some line of the cart carries `id`. */
  predicate InCart(cart: Cart, id: int) {
    exists i :: 0 <= i < |cart| && cart[i].id == id
  }

  /** `cart.findIndex(product => product.id === id)`: the index of the first
      line carrying `id`, or -1 when there is none. */
  function FindIndex(cart: Cart, id: int): (r: int)
    ensures -1 <= r < |cart|
    ensures r == -1 <==> !InCart(cart, id)
    ensures 0 <= r ==> cart[r].id == id
    ensures 0 <= r ==> forall j :: 0 <= j < r ==> cart[j].id != id
    decreases |cart|
  {
    if |cart| == 0 then -1
    else if cart[0].id == id then 0
    else
      var k := FindIndex(cart[1..], id);
      assert InCart(cart, id) ==> InCart(cart[1..], id) by {
        if InCart(cart, id) {
          var i :| 0 <= i < |cart| && cart[i].id == id;
          assert cart[1..][i - 1].id == id;
        }
      }
      if k < 0 then -1 else k + 1
  }

  /** No two lines carry the same product id. */
  predicate UniqueIds(cart: Cart) {
    forall i, j :: 0 <= i < j < |cart| ==> cart[i].id != cart[j].id
  }

  /** Every line holds at least one unit. */
  predicate AmountsPositive(cart: Cart) {
    forall i :: 0 <= i < |cart| ==> cart[i].amount >= 1
  }

  /** The shape the cart operations keep: one line per product, each with a
      positive quantity. A cart restored from storage is not checked for it. */
  predicate WellFormed(cart: Cart) {
    UniqueIds(cart) && AmountsPositive(cart)
  }

  /** On a cart with unique ids, the line that carries `id` is the one found. */
  lemma FindIndexUnique(cart: Cart, id: int, i: int)
    requires UniqueIds(cart)
    requires 0 <= i < |cart| && cart[i].id == id
    ensures FindIndex(cart, id) == i
  {
  }
}

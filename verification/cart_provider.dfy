/**
 * The three cart mutations of the cart provider: add one unit of a product,
 * remove a product's line, and set a line's quantity.
 *
 * Each operation is a pure function of the current cart and of what the
 * remote services answered. The stock and catalog lookups are parameters:
 * `Ok` with the record they returned, or `Err` with the failed request's
 * message. A success yields the new cart; a failure yields the message shown
 * to the user and no new cart. (A failure of the storage write after the
 * in-place change is not part of this model.)
 */
module CartProvider {
  import opened Results
  import opened Text
  import opened CartModel

  const OutOfStock: string := "Quantidade solicitada fora de estoque"
  const AddFailed: string := "Erro na adição do produto"
  const RemoveFailed: string := "Erro na remoção do produto"
  const UpdateFailed: string := "Erro na alteração de quantidade do produto"

  /** The marker of a missing-resource answer in a failed request's message. */
  const NotFoundStatus: string := "404"

  /** `after` is `before` with the quantity of line `i` raised by one. */
  predicate Incremented(before: Cart, after: Cart, i: int) {
    && 0 <= i < |before|
    && |after| == |before|
    && after[i] == before[i].(amount := before[i].amount + 1)
    && forall j :: 0 <= j < |before| && j != i ==> after[j] == before[j]
  }

  /** `after` is `before` with `line` added behind the existing lines. */
  predicate Appended(before: Cart, after: Cart, line: Product) {
    && |after| == |before| + 1
    && after[|before|] == line
    && forall j :: 0 <= j < |before| ==> after[j] == before[j]
  }

  /** `after` is `before` without line `i`, the other lines in their order. */
  predicate RemovedAt(before: Cart, after: Cart, i: int) {
    && 0 <= i < |before|
    && |after| == |before| - 1
    && (forall j :: 0 <= j < i ==> after[j] == before[j])
    && (forall j :: i <= j < |after| ==> after[j] == before[j + 1])
  }

  /** `after` is `before` with the quantity of line `i` set to `n`. */
  predicate AmountSet(before: Cart, after: Cart, i: int, n: int) {
    && 0 <= i < |before|
    && |after| == |before|
    && after[i] == before[i].(amount := n)
    && forall j :: 0 <= j < |before| && j != i ==> after[j] == before[j]
  }

  /** The stock answer counts as "no stock": `!stock.amount` on a number. */
  predicate NoStock(stock: Stock) {
    stock.amount == 0
  }

  /** The message `addProduct`'s catch block shows for a failure with message
      `m`: a missing-resource failure gets a generic text, anything else is
      shown as thrown. */
  function AddErrorMessage(m: string): (shown: string)
    ensures (exists i :: OccursAt(m, NotFoundStatus, i)) ==> shown == AddFailed
    ensures !(exists i :: OccursAt(m, NotFoundStatus, i)) ==> shown == m
  {
    ContainsIffOccurs(m, NotFoundStatus);
    if Contains(m, NotFoundStatus) then AddFailed else m
  }

  /** The out-of-stock message reaches the user unchanged through the mapping. */
  lemma OutOfStockShownAsThrown()
    ensures AddErrorMessage(OutOfStock) == OutOfStock
  {
    NotContainsWithoutFirstChar(OutOfStock, NotFoundStatus);
  }

  /** The body of `addProduct`'s try block: it fails with the raw message of
      whatever is thrown. */
  function AttemptAdd(cart: Cart, productId: int, stock: Result<Stock>, product: Result<CatalogProduct>): Result<Cart>
  {
    if stock.Err? then Err(stock.message)
    else
      var i := FindIndex(cart, productId);
      if NoStock(stock.value) || (i > -1 && cart[i].amount >= stock.value.amount) then
        Err(OutOfStock)
      else if i > -1 then
        Ok(cart[i := cart[i].(amount := cart[i].amount + 1)])
      else if product.Err? then
        Err(product.message)
      else
        Ok(cart + [Line(product.value, 1)])
  }

  /** `addProduct(productId)`: one more unit of the product, as a new line
      with quantity 1 when the cart does not hold it yet. The stock answer is
      consulted first; the catalog answer only when a new line is needed. */
  function AddProduct(cart: Cart, productId: int, stock: Result<Stock>, product: Result<CatalogProduct>): (r: Result<Cart>)
    // a failed stock lookup is reported through the 404 mapping
    ensures stock.Err? ==> r == Err(AddErrorMessage(stock.message))
    // no stock, or the line already holds all of it: refused, cart untouched
    ensures stock.Ok? && NoStock(stock.value) ==> r == Err(OutOfStock)
    ensures (stock.Ok? && InCart(cart, productId) &&
             cart[FindIndex(cart, productId)].amount >= stock.value.amount) ==>
              r == Err(OutOfStock)
    // a success needed a stock answer with some stock
    ensures r.Ok? ==> stock.Ok? && !NoStock(stock.value)
    // present product: its first line gains exactly one unit, within the stock seen
    ensures (stock.Ok? && !NoStock(stock.value) && InCart(cart, productId) &&
             cart[FindIndex(cart, productId)].amount < stock.value.amount) ==>
              r.Ok? && Incremented(cart, r.value, FindIndex(cart, productId))
    ensures r.Ok? && InCart(cart, productId) ==>
              r.value[FindIndex(cart, productId)].amount <= stock.value.amount
    // absent product: the fetched record is appended with quantity 1
    ensures (stock.Ok? && !NoStock(stock.value) && !InCart(cart, productId) && product.Ok?) ==>
              r.Ok? && Appended(cart, r.value, Line(product.value, 1))
    ensures (stock.Ok? && !NoStock(stock.value) && !InCart(cart, productId) && product.Err?) ==>
              r == Err(AddErrorMessage(product.message))
    // with a non-negative stock answer, the new line stays within it
    ensures r.Ok? && !InCart(cart, productId) && stock.value.amount >= 0 ==>
              1 <= r.value[|cart|].amount <= stock.value.amount
  {
    match AttemptAdd(cart, productId, stock, product)
    case Ok(next) => Ok(next)
    case Err(m) =>
      OutOfStockShownAsThrown();
      Err(AddErrorMessage(m))
  }

  /** `removeProduct(productId)`: drop the first line of the product. */
  function RemoveProduct(cart: Cart, productId: int): (r: Result<Cart>)
    ensures !InCart(cart, productId) ==> r == Err(RemoveFailed)
    ensures InCart(cart, productId) ==> r.Ok? && RemovedAt(cart, r.value, FindIndex(cart, productId))
    ensures r.Ok? ==> multiset(r.value) + multiset{cart[FindIndex(cart, productId)]} == multiset(cart)
  {
    var i := FindIndex(cart, productId);
    if i < 0 then Err(RemoveFailed)
    else
      assert cart == cart[..i] + [cart[i]] + cart[i + 1..];
      Ok(cart[..i] + cart[i + 1..])
  }

  /** `updateProductAmount({productId, amount})`: set the quantity of the
      product's first line. The request is validated before the stock service
      is asked, so a bad request fails whatever the stock answer would be. */
  function UpdateProductAmount(cart: Cart, productId: int, amount: int, stock: Result<Stock>): (r: Result<Cart>)
    ensures amount < 1 || !InCart(cart, productId) ==> r == Err(UpdateFailed)
    ensures amount >= 1 && InCart(cart, productId) && stock.Err? ==> r == Err(stock.message)
    ensures (amount >= 1 && InCart(cart, productId) && stock.Ok? &&
             (NoStock(stock.value) || amount > stock.value.amount)) ==>
              r == Err(OutOfStock)
    ensures r.Ok? <==> (amount >= 1 && InCart(cart, productId) && stock.Ok? &&
                        !NoStock(stock.value) && amount <= stock.value.amount)
    ensures r.Ok? ==> AmountSet(cart, r.value, FindIndex(cart, productId), amount)
  {
    var i := FindIndex(cart, productId);
    if amount < 1 || i < 0 then Err(UpdateFailed)
    else if stock.Err? then Err(stock.message)
    else if NoStock(stock.value) || amount > stock.value.amount then Err(OutOfStock)
    else Ok(cart[i := cart[i].(amount := amount)])
  }
}

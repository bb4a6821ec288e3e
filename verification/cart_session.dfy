/**
 * A run of user actions against the provider: each action either replaces
 * the cart (the state update after a success) or leaves it as it was and
 * shows one error message (the toast after a failure).
 */
module CartSession {
  import opened Results
  import opened CartModel
  import opened CartProvider
  import opened CartInvariants

  /** One call into the provider, with what the remote services answered. */
  datatype Action =
    | Add(productId: int, stock: Result<Stock>, product: Result<CatalogProduct>)
    | Remove(productId: int)
    | Update(productId: int, amount: int, stock: Result<Stock>)

  /** The cart held by the provider and the error messages shown so far. */
  datatype Session = Session(cart: Cart, shown: seq<string>)

  /** The operation an action invokes. */
  function Perform(cart: Cart, a: Action): Result<Cart> {
    match a
    case Add(id, stock, product) => AddProduct(cart, id, stock, product)
    case Remove(id) => RemoveProduct(cart, id)
    case Update(id, amount, stock) => UpdateProductAmount(cart, id, amount, stock)
  }

  /** Apply one action: a success replaces the cart, a failure keeps it and
      shows exactly one message. */
  function Step(s: Session, a: Action): (next: Session)
    ensures Perform(s.cart, a).Ok? ==> next.cart == Perform(s.cart, a).value && next.shown == s.shown
    ensures Perform(s.cart, a).Err? ==>
              next.cart == s.cart && next.shown == s.shown + [Perform(s.cart, a).message]
    ensures |next.shown| >= |s.shown| && next.shown[..|s.shown|] == s.shown
  {
    match Perform(s.cart, a)
    case Ok(cart) => Session(cart, s.shown)
    case Err(m) => Session(s.cart, s.shown + [m])
  }

  /** Apply the actions in order. */
  function Run(s: Session, actions: seq<Action>): Session
    decreases |actions|
  {
    if |actions| == 0 then s else Run(Step(s, actions[0]), actions[1..])
  }

  /** Every add in the run got the requested product from the catalog. */
  predicate HonestCatalog(actions: seq<Action>) {
    forall k :: 0 <= k < |actions| && actions[k].Add? ==>
      CatalogAnswers(actions[k].productId, actions[k].product)
  }

  /** One action keeps a well-formed cart well-formed. */
  lemma StepPreservesWellFormed(s: Session, a: Action)
    requires WellFormed(s.cart)
    requires a.Add? ==> CatalogAnswers(a.productId, a.product)
    ensures WellFormed(Step(s, a).cart)
  {
    if Perform(s.cart, a).Ok? {
      match a
      case Add(id, stock, product) => AddPreservesWellFormed(s.cart, id, stock, product);
      case Remove(id) => RemovePreservesWellFormed(s.cart, id);
      case Update(id, amount, stock) => UpdatePreservesWellFormed(s.cart, id, amount, stock);
    }
  }

  /** Any run of actions keeps a well-formed cart well-formed, and never
      forgets a message it has shown. */
  lemma {:induction false} RunPreservesWellFormed(s: Session, actions: seq<Action>)
    requires WellFormed(s.cart)
    requires HonestCatalog(actions)
    ensures WellFormed(Run(s, actions).cart)
    ensures |Run(s, actions).shown| >= |s.shown|
    ensures Run(s, actions).shown[..|s.shown|] == s.shown
    decreases |actions|
  {
    if |actions| > 0 {
      var next := Step(s, actions[0]);
      StepPreservesWellFormed(s, actions[0]);
      assert HonestCatalog(actions[1..]) by {
        forall k | 0 <= k < |actions[1..]| && actions[1..][k].Add?
          ensures CatalogAnswers(actions[1..][k].productId, actions[1..][k].product)
        {
          assert actions[1..][k] == actions[k + 1];
        }
      }
      RunPreservesWellFormed(next, actions[1..]);
      var last := Run(next, actions[1..]);
      assert last.shown[..|s.shown|] == last.shown[..|next.shown|][..|s.shown|];
    }
  }
}

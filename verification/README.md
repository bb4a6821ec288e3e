# Shopping-cart hook — a Dafny model

This project models the cart-mutation logic of the storefront's cart
provider (`CartProvider` in `src/hooks/useCart.tsx`). The cart is an ordered
list of product lines, and each line carries an `amount`. Three operations
change it:

- `addProduct` asks the stock service first. It adds one unit to the first
  line of the product. If the cart has no line for the product, it appends
  the catalog record with amount 1.
- `removeProduct` drops the first line of the product.
- `updateProductAmount` validates the request, asks the stock service, and
  then overwrites the line's amount.

Every modelled failure (a failed remote lookup, missing stock, an invalid
amount, an unknown product) is caught inside the operation. It becomes one
message for the error toast, and no new cart is produced.

In the model each operation is a pure function. It takes the current cart
and the answers of the remote services, and returns `Ok(new cart)` or
`Err(message)`. A remote answer is a parameter: `Ok(record)`, or `Err(m)`
when the request failed with message `m`. The catalog answer is used only
when a new line has to be created.

Files:

- `results.dfy` (`Results`): the `Result` type.
- `text.dfy` (`Text`): substring search (`includes`).
- `cart_model.dfy` (`CartModel`): products, stock records, cart lines, the
  first-match lookup (`findIndex`) and the well-formedness invariant.
- `cart_provider.dfy` (`CartProvider`): the error messages and the three
  operations.
- `cart_view.dfy` (`CartView`): an independent reference for the operations.
  It maps each product id to its quantity, and each operation is shown to be
  the matching map update.
- `cart_invariants.dfy` (`CartInvariants`): the operations preserve
  well-formedness.
- `cart_laws.dfy` (`CartLaws`): how the operations relate. Some undo others,
  update is idempotent, and add is not.
- `cart_session.dfy` (`CartSession`): a run of actions. A success replaces
  the cart; a failure keeps the cart and shows one message.

Points about the code that the model makes explicit:

- `addProduct` shows any failure message without "404" unchanged, for
  example a network error's own message. Only a message containing "404"
  is replaced by "Erro na adição do produto".
- `addProduct` is not idempotent. Each successful call adds one more unit
  (`CartLaws.AddTwiceAddsTwo`). Repeating `updateProductAmount` with the same
  inputs changes nothing (`CartLaws.UpdateIdempotent`).
- A cart restored from storage is never checked for unique ids or for
  amounts of at least 1. The model therefore states this shape as
  `CartModel.WellFormed`, an invariant the operations preserve.
- The new line is `{...product, amount: 1}`, so it takes its id from the
  catalog record, not from the requested id. Uniqueness is preserved only
  when the catalog answers with the requested product
  (`CartInvariants.CatalogMismatchBreaksUniqueness`).

## Model

| member | source | states |
|---|---|---|
| `CartModel.FindIndex` | src/hooks/useCart.tsx:35 | the result is -1 exactly when no line carries the id; otherwise it is the index of a line carrying the id, and no earlier line carries it |
| `CartModel.FindIndexUnique` | src/hooks/useCart.tsx:35 | on a cart with unique ids, the lookup finds the one line that carries the id |
| `Text.ContainsIffOccurs` | src/hooks/useCart.tsx:54 | the substring test holds exactly when some window of the message equals the pattern |
| `Text.NotContainsWithoutFirstChar` | src/hooks/useCart.tsx:54 | a pattern whose first character never appears in the message is not contained in it |
| `CartProvider.AddErrorMessage` | src/hooks/useCart.tsx:53-58 | a failure message in which some window equals "404" is shown as "Erro na adição do produto"; any other message is shown unchanged |
| `CartProvider.OutOfStockShownAsThrown` | src/hooks/useCart.tsx:41-56 | the out-of-stock message contains no "404", so the user sees it unchanged |
| `CartProvider.AddProduct` | src/hooks/useCart.tsx:31-60 | a failed stock lookup yields the mapped message. Stock 0, or a first line already at or above stock, yields "Quantidade solicitada fora de estoque" and no new cart. A present product's first line gains exactly one unit, the length and all other lines are unchanged, and the new amount is within the stock seen. An absent product gets the catalog record appended with amount 1, the earlier lines stay in order, and the amount is within a non-negative stock. A failed catalog lookup yields the mapped message |
| `CartProvider.RemoveProduct` | src/hooks/useCart.tsx:62-76 | an absent id fails with "Erro na remoção do produto". Otherwise exactly the first matching line is removed: the length drops by one, the other lines keep their order, and the multiset of lines loses just that line |
| `CartProvider.UpdateProductAmount` | src/hooks/useCart.tsx:78-101 | an amount below 1 or an absent id fails with "Erro na alteração de quantidade do produto", whatever the stock answer. Otherwise a failed stock lookup shows its own message, and stock 0 or an amount above stock fails as out of stock. It succeeds exactly when none of these hold, and then only the first matching line's amount changes, to the requested value |
| `CartView.AmountSetView` | src/hooks/useCart.tsx:93 | on a unique-id cart, overwriting one line's amount changes exactly that product's entry in the quantity map |
| `CartView.AddRefinesView` | src/hooks/useCart.tsx:31-60 | on a unique-id cart, a successful add raises the product's quantity by one, or records it as 1 when absent; every other quantity is unchanged |
| `CartView.RemoveRefinesView` | src/hooks/useCart.tsx:62-76 | on a unique-id cart, a successful remove deletes exactly the product's entry from the quantity map |
| `CartView.UpdateRefinesView` | src/hooks/useCart.tsx:78-101 | on a unique-id cart, a successful update sets exactly the product's quantity to the requested amount |
| `CartInvariants.AddPreservesWellFormed` | src/hooks/useCart.tsx:37-47 | a successful add keeps ids unique and amounts at least 1, provided the catalog answers with the requested id |
| `CartInvariants.RemovePreservesWellFormed` | src/hooks/useCart.tsx:64-68 | a successful remove keeps ids unique and amounts at least 1 |
| `CartInvariants.UpdatePreservesWellFormed` | src/hooks/useCart.tsx:83-93 | a successful update keeps ids unique and amounts at least 1 |
| `CartInvariants.CatalogMismatchBreaksUniqueness` | src/hooks/useCart.tsx:45-47 | a catalog record whose id differs from the requested id can produce a second line for a product already in the cart |
| `CartLaws.FindIndexSameIds` | src/hooks/useCart.tsx:35 | the lookup depends only on the ids of the lines, not on their amounts or details |
| `CartLaws.AddThenRemoveRestores` | src/hooks/useCart.tsx:44-68 | adding an absent product and then removing it gives back the original cart |
| `CartLaws.AddThenUpdateRestores` | src/hooks/useCart.tsx:43-93 | adding one unit of a present product is undone by updating it back to its previous amount |
| `CartLaws.UpdateIdempotent` | src/hooks/useCart.tsx:83-93 | repeating a successful update with the same inputs succeeds and changes nothing |
| `CartLaws.UpdateLastWins` | src/hooks/useCart.tsx:83-93 | after a successful update, a second update of the same product gives the same outcome as applying only the second |
| `CartLaws.AddTwiceAddsTwo` | src/hooks/useCart.tsx:43 | two successful adds of a present product raise its amount by two, so add is not idempotent |
| `CartSession.Step` | src/hooks/useCart.tsx:50-99 | a success replaces the cart by the operation's new cart and shows nothing (`setCart` at lines 52, 72, 97). A failure keeps the cart and appends exactly the operation's message to the shown messages (`toast.error` at lines 58, 74, 99). Earlier messages are kept |
| `CartSession.StepPreservesWellFormed` | src/hooks/useCart.tsx:31-101 | any single action keeps a well-formed cart well-formed when the catalog answers with the requested id |
| `CartSession.RunPreservesWellFormed` | src/hooks/useCart.tsx:31-101 | any sequence of actions keeps a well-formed cart well-formed and keeps every message already shown |

## Left out

- React wiring is not modelled: the context, the `useState` holder, the provider element and `useCart` (`src/hooks/useCart.tsx:22-29`, `103-116`). They carry no cart logic.
- Restoring and saving the cart through `localStorage` and JSON is not modelled (`src/hooks/useCart.tsx:26-28`, `50`, `70`, `95`). That code belongs to the browser and the JSON library and is not visible. The snapshot round trip is therefore not proved. A successful operation's new cart is what would be written.
- The HTTP calls to `stock/` and `products/` are not modelled. Their answers are parameters.
- `toast.error` is not modelled as a call. The message is the `Err` payload, and `CartSession` collects the messages in order.
- Concurrent calls are not modelled. Two in-flight operations can read the same cart and lose an update; the code gives no guarantee about this.
- In-place mutation is not modelled (`amount++`, `push`, `splice`, then copying the array). Each operation builds a new sequence. This gives the same result whenever the storage write succeeds.
- A failing `localStorage.setItem` is not modelled. The code changes the held array or line in place first (`src/hooks/useCart.tsx:43`, `47`, `68`, `93`) and writes to storage afterwards (`50`, `70`, `95`). If that write throws, `setCart` is skipped and the failure toast is shown, yet the in-memory cart has already changed. For example, `removeProduct` then shows "Erro na remoção do produto" although the line is gone. The model's promise that a failure produces no new cart covers only the failures listed at the top.
- Numbers are modelled as mathematical integers. The code's `number` could also hold NaN, `undefined` or fractions, and for those `!stock.amount` and the comparisons behave differently.
- `CartProvider.AddProduct`: the promise "new line within stock" is stated only for a non-negative stock answer. With a negative stock amount, the `!stock.amount` guard lets a new line through with amount 1, above the stock.
- `CartProvider.AddProduct`: the contract does not say the incremented line's amount is at least 1. That holds only when the line's earlier amount was non-negative, and `CartInvariants.AddPreservesWellFormed` states it for well-formed carts.

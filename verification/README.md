# Storefront cart, quantity selector and keyword search: a Dafny model

This project models the three pieces of stateful logic in a React Native storefront client:

- **The cart slice** (`src/features/Cart/cartSlice.js`). The cart holds an ordered list of lines, a `total`, an owner `user` and an `updatedAt` stamp. It has three reducers:
  - `addCartItem` merges the payload into the line with the same id, or appends it if there is none.
  - `removeCartItem` keeps the lines whose id differs.
  - `clearCart` empties the cart.

  Add and remove both recompute the total from scratch as Σ price × quantity.
- **The quantity selector of the product detail screen** (`src/screens/ItemDetail.jsx`). The counter starts at 1. "+" adds one, and "-" never goes below 1. "Add to cart" dispatches the loaded product with the chosen quantity and then resets the counter to 1.
- **The keyword search of the category screen** (`src/screens/ItemListCategory.jsx`). A keyword with a digit empties the list and sets an error. Otherwise, once the products have arrived as an array, the list holds the products whose lower-cased title contains the lower-cased keyword, in catalogue order, and the error is cleared.

Modules:

| file | module | models |
|---|---|---|
| `seqs.dfy` | `Seqs` | `Array.prototype.filter` (`Filter`), and "is a subsequence of" (`SubsequenceOf`) |
| `catalog.dfy` | `Catalog` | the product record, `Option` |
| `cart.dfy` | `Cart` | the cart slice, its invariants, and runs of dispatched actions |
| `item_detail.dfy` | `ItemDetail` | the quantity selector and the payload it dispatches |
| `item_list_category.dfy` | `ItemListCategory` | the filtering effect |
| `storefront.dfy` | `Storefront` | the detail screen feeding the cart |

The reducers validate nothing, so `AddCartItem` has no precondition. Positive quantities are a separate invariant, `PositiveQuantities`. Every reducer preserves it as long as each added payload has a positive quantity. `ItemDetail.Run` proves that every payload the detail screen dispatches has a positive quantity. `Storefront.DetailScreenFeedsCart` joins these two facts.

Three facts about the code shape the contracts:
- `addCartItem` does not check that `quantity ≥ 1`. Its only caller, `handleAddCart` (`src/screens/ItemDetail.jsx:68`), guarantees it, so positivity is an invariant of runs rather than a precondition.
- `removeCartItem` recomputes the total from the remaining lines. Removing an absent id therefore keeps the total only if the total already agreed with the lines.
- In the merge branch, `addCartItem` adds to *every* line carrying the payload's id. With unique ids, which every reachable cart has, that is exactly one line.

## Model

| member | source | states |
|---|---|---|
| `Cart.Initial` | src/features/Cart/cartSlice.js:5-11 | The initial cart has no lines, a total of 0 and the placeholder owner `"userIdLoggedIn"`, and it is valid. |
| `Cart.AddCartItem` | src/features/Cart/cartSlice.js:14-46 | Sets `updatedAt` to the current time and keeps the owner. The new total equals the sum of the new lines. If the id is present, no line is created: each line with that id gains the payload quantity and the other lines are kept in place. If the id is absent, the payload is appended after the unchanged lines. |
| `Cart.IncreaseQuantity` | src/features/Cart/cartSlice.js:17-23 | The merge `map` keeps the length. Each line with the id gains `q` units with its product fields unchanged. Every other line is returned as it was, at the same position. |
| `Cart.AddToPresent` | src/features/Cart/cartSlice.js:15-26 | Adding an id held by line `i` keeps the number of lines. Line `i` keeps its product (price, title, brand) and its quantity grows by the payload's quantity. Lines with other ids are unchanged. In a valid cart the total rises by line `i`'s own price times the added quantity. |
| `Cart.IncreaseQuantitySum` | src/features/Cart/cartSlice.js:17-26 | With unique ids, adding `q` units to one line raises the recomputed sum by that line's price times `q`. |
| `Cart.AddToAbsent` | src/features/Cart/cartSlice.js:34-38 | Adding a new id appends the payload at the end. The earlier lines are unchanged. A consistent total rises by the payload's price × quantity. |
| `Cart.AddLeavesOthers` | src/features/Cart/cartSlice.js:14-46 | After an add, every line whose id differs from the payload's was already in the cart. |
| `Cart.AddTwice` | src/features/Cart/cartSlice.js:14-46 | Adding the same new product twice gives one line with quantity q1 + q2, and a total raised by price × (q1 + q2). |
| `Cart.AddKeepsUniqueIds` | src/features/Cart/cartSlice.js:15-35 | If the lines' ids are unique before an add, they are still unique after it. |
| `Cart.AddKeepsPositive` | src/features/Cart/cartSlice.js:19 | Adding a payload with a positive quantity keeps every line's quantity positive. |
| `Cart.RemoveCartItem` | src/features/Cart/cartSlice.js:48-59 | Sets `updatedAt` to the current time and keeps the owner. The total equals the sum of the remaining lines. A line remains if and only if it was in the cart and its id differs from the removed id. Each remaining line occurs as many times as before, and no line with the removed id occurs. The remaining lines are a subsequence of the old ones, so their order is kept. |
| `Cart.RemoveAbsent` | src/features/Cart/cartSlice.js:49-52 | Removing an id that is not present leaves the lines unchanged. It also leaves the total unchanged when the total agreed with the lines before. |
| `Cart.RemovePresent` | src/features/Cart/cartSlice.js:49-52 | With unique ids, removing the id of line `i` leaves exactly the lines before and after `i`. A consistent total falls by line `i`'s price × quantity. |
| `Cart.RemoveKeepsUniqueIds` | src/features/Cart/cartSlice.js:49 | If the ids are unique before a remove, they are still unique after it. |
| `Cart.RemoveKeepsPositive` | src/features/Cart/cartSlice.js:49 | A remove keeps every line's quantity positive. |
| `Cart.ClearCart` | src/features/Cart/cartSlice.js:60-63 | After a clear, the cart has no lines and a total of 0, and is valid. The owner and `updatedAt` are left untouched, whereas add and remove refresh `updatedAt`. |
| `Cart.ClearIsInitial` | src/features/Cart/cartSlice.js:5-11 | Clearing a cart that still has the placeholder owner gives back the initial state, which has no lines and a total of 0. |
| `Cart.ReduceTotal` | src/features/Cart/cartSlice.js:24-26 | The left-to-right `reduce` that add and remove run returns `Sum`, the sum of price × quantity over the lines. |
| `Cart.SumAppend` | src/features/Cart/cartSlice.js:24-26 | The total of a concatenation is the sum of the two parts' totals, so the total does not depend on how the lines are grouped. |
| `Cart.SumSingle` | src/features/Cart/cartSlice.js:24-26 | A single line's total is its price × quantity. |
| `Cart.SumNonNegative` | src/features/Cart/cartSlice.js:24-26 | If prices are non-negative and quantities are positive, the total is non-negative. |
| `Cart.Apply` | src/features/Cart/cartSlice.js:13-64 | Whichever reducer an action selects, the resulting total equals the sum of the lines and the owner is kept. Add and remove stamp `updatedAt` with the action's time, while clear leaves it as it was. |
| `Cart.RunKeepsValid` | src/features/Cart/cartSlice.js:13-64 | Any sequence of add, remove and clear actions keeps the ids unique and the total equal to the sum of the lines. It never changes the owner. |
| `Cart.RunKeepsPositive` | src/features/Cart/cartSlice.js:13-64 | If every added payload has a positive quantity, every line keeps a positive quantity under any sequence of actions. |
| `Cart.RunOfAddsLeavesOthers` | src/features/Cart/cartSlice.js:14-46 | After any sequence of adds of one product, every line of another product was already in the cart. |
| `Cart.ReachableIsValid` | src/features/Cart/cartSlice.js:5-64 | Every cart reachable from the initial state has unique ids, a total equal to the sum of its lines, and the placeholder owner. |
| `Cart.WorkedExampleMerge` | src/features/Cart/cartSlice.js:14-38 | Starting empty, adding {id 1, price 10, quantity 2} and then quantity 3 leaves one line with quantity 5 and a total of 50. |
| `Cart.WorkedExampleAppend` | src/features/Cart/cartSlice.js:34-38 | Adding {id 2, price 5, quantity 1} to the cart holding five units of product 1 appends a second line and gives a total of 55. |
| `Cart.WorkedExampleRemove` | src/features/Cart/cartSlice.js:48-59 | Removing id 1 from that two-line cart leaves the id-2 line alone, with a total of 5. |
| `Seqs.Filter` | src/features/Cart/cartSlice.js:49 | `Array.prototype.filter` keeps an element if and only if it passes the test. It keeps every occurrence of a passing element and none of a failing one. The result is never longer than the input. |
| `Seqs.FilterIsSubsequence` | src/screens/ItemListCategory.jsx:38-40 | A filtered array keeps the relative order of its input. |
| `Seqs.FilterKeepsAll` | src/screens/ItemListCategory.jsx:38-40 | If every element passes, the filter returns the whole array unchanged. |
| `ItemDetail.Open` | src/screens/ItemDetail.jsx:28 | A freshly opened screen shows the fetched product, if any, with a selection of 1. |
| `ItemDetail.Decrement` | src/screens/ItemDetail.jsx:62-64 | "-" from q > 1 gives q − 1. From 1 or below it gives 1. The result is always at least 1. |
| `ItemDetail.IncrementDecrement` | src/screens/ItemDetail.jsx:58-64 | For any selection of at least 1, "-" undoes "+". Above 1, "+" undoes "-". |
| `ItemDetail.HandleAddCart` | src/screens/ItemDetail.jsx:66-73 | With no product loaded, nothing is dispatched and the screen is unchanged. With a product loaded, the payload is that product with the selected quantity, and the selection resets to 1. |
| `ItemDetail.Step` | src/screens/ItemDetail.jsx:58-73 | One press keeps the product. From a selection of at least 1 the selection stays at least 1, and "+" raises it by one. Only "add to cart" can dispatch, and then only the loaded product with the current selection. |
| `ItemDetail.Run` | src/screens/ItemDetail.jsx:28-73 | Under any sequence of "+", "-" and "add to cart" presses starting from a selection of at least 1, the selection stays at least 1 and so does every dispatched quantity. Every payload is the loaded product, and there is at most one payload per press. |
| `ItemListCategory.HasDigit` | src/screens/ItemListCategory.jsx:29-30 | `/\d/.test(keyWord)` holds if and only if some position of the keyword holds an ASCII digit. |
| `ItemListCategory.Lower` | src/screens/ItemListCategory.jsx:39 | Lower-casing keeps the length, leaves no upper-case ASCII letter, maps each upper-case letter to its lower-case partner and keeps every other character. |
| `ItemListCategory.Contains` | src/screens/ItemListCategory.jsx:39 | `includes` holds if and only if the needle occurs at some start position in the haystack. |
| `ItemListCategory.FilterEffect` | src/screens/ItemListCategory.jsx:28-46 | A keyword with a digit gives an empty list and the digit error, whatever the products are. With no digit, not loading, and an array: the error is cleared and the list is a subsequence of the products. A product is in the list if and only if it is in the products and its lower-cased title contains the lower-cased keyword. When not loading and the products are not an array, the list is emptied and the error is kept. While loading, nothing changes. |
| `ItemListCategory.FilteredCounts` | src/screens/ItemListCategory.jsx:38-40 | Each matching product appears in the list as many times as in the catalogue. Non-matching products do not appear. |
| `ItemListCategory.EmptyKeywordKeepsAll` | src/screens/ItemListCategory.jsx:37-42 | An empty keyword keeps every product in order and clears the error. |
| `ItemListCategory.CaseInsensitive` | src/screens/ItemListCategory.jsx:29-40 | The effect gives the same result for a keyword as for its lower-cased form. |
| `Storefront.DetailScreenFeedsCart` | src/screens/ItemDetail.jsx:66-73 | The payloads a freshly opened detail screen dispatches, fed to a valid cart whose quantities are positive, keep it valid and keep its quantities positive. With no product loaded, the cart is unchanged. With a product loaded, every line of another product was already in the cart. |

## Left out

- Session persistence (`src/hooks/useSession.js`, `src/hooks/useDb.js`, `src/hooks/webStorage.js`) is not part of this model. These are asynchronous wrappers over an embedded SQL database and browser local storage, and their behaviour lives in those libraries.
- Remote endpoints (`src/services/shopServices.js`, `src/services/authService.js`) and the checkout in `src/screens/Cart.jsx` are network I/O and are not modelled. The checkout posts the order and then dispatches `clearCart`, which is modelled.
- The wall clock is not modelled. `new Date().toLocaleString()` becomes a `now` parameter of add and remove, which is enough to tell "refreshed" from "unchanged".
- Prices are integers (cents), not JavaScript floating-point numbers. The rounding of `price * quantity` sums and the `toFixed` display are not modelled. Quantities are unbounded integers, so overflow past 2^53 is not modelled either.
- Product ids are integers compared with `==`. A string id compared with `===` against a numeric id is not modelled.
- Among the product's display fields, only `title`, `brand` and `description` are modelled. Any other fields are carried through the spread `{...product, quantity}` unchanged and are read by no modelled operation.
- `toLocaleLowerCase` is modelled for ASCII letters only. Locale-specific case mappings are not modelled.
- React scheduling is not modelled. The filtering effect is a function applied each time it runs. When it runs (its dependency list), and the other screens' rendering, alerts, animations and navigation, are UI.
- The login and sign-up form validation is not modelled, because it is delegated to a schema library. The camera and geolocation screens are device and network calls. The counter component's slice is not part of this model.
- `ItemDetail.Increment` carries no contract of its own. It is the one-line `+ 1`, and its properties are stated by `ItemDetail.IncrementDecrement` and `ItemDetail.Run`.
- `Product.title` is assumed to be a string. A product without a title makes `product.title.toLocaleLowerCase()` (`src/screens/ItemListCategory.jsx:39`) throw a `TypeError`, which is not modelled.

# Cart and checkout flow of the ecom storefront, in Dafny

This project models the only stateful logic of the storefront demo: the
in-memory cart store and the product page that drives it.

- **Cart store** (`Store`): an observable object holding `cart`, an ordered
  list of cart items that starts empty and has one mutation, `addCartItem`,
  which pushes onto the end. No dedup, no removal, no validation. The class
  `Store.CartStore` has the `cart` field as a `seq` and the push as a method;
  `Store.AddAll` is the value-level view of a series of pushes.
- **Booking records** (`Booking`): `Product` (name, description, image),
  `Passenger` (the seven form fields, each possibly missing) and `CartItem`
  (a product with a passenger).
- **Checkout page** (`Checkout`): the page state (`modalVisible`,
  `cartSummaryVisible`, `selectedProduct`, and the store's cart) with its
  five handlers. `Checkout.Step` states the effect of one handler,
  `Checkout.Run` that of a series of them, and the class `Checkout.Home`
  holds the state variables and the store and has one method per handler,
  each proved to change the state exactly as `Step` says. The lemmas about
  `Run` therefore hold for every series of method calls on a `Home`.
- **Pricing** (`Pricing`): `calculateTotalPrice` is the cart length times
  the ticket price 1200. `Pricing.TotalPriceIgnoresContents` states that two
  carts cost the same exactly when they have the same length, whatever their
  items; the total is also proved equal to a sum of one ticket price per item.
- **Product feed** (`ProductFeed`): the branch logic of `getStaticProps` as
  a function of the fetch outcome: the fetched list on an ok response with a
  parsable body, the empty list on a non-ok status or on any exception, and a
  revalidation interval of 10 seconds on every branch.

Three facts about the page's code shape the model:
- the "View Cart Summary" button (`src/pages/index.js:79`) has no guard, so
  the summary opens on an empty cart too (`Checkout.SummaryOpensOnEmptyCart`);
- the page has one passenger modal;
- no `Form.Item` (`src/pages/index.js:91-115`) carries a rule, so every
  `Passenger` field is an `Option`.

## Model

| member | source | states |
|---|---|---|
| Store.CartStore.constructor | src/stores/CartStore.js:4-5 | a new store's cart is empty |
| Store.CartStore.AddCartItem | src/stores/CartStore.js:6-8 | the new cart is the old one with the item pushed on the end: one longer, the item last, the old cart a prefix; no precondition |
| Store.AddAll | src/stores/CartStore.js:6-8 | after a series of pushes the cart grew by exactly the number of items and still starts with the old cart |
| Store.AddAllInOrder | src/stores/CartStore.js:5-8 | a series of pushes leaves the old cart followed by the items in call order |
| Store.FreshStoreAfterCalls | src/stores/CartStore.js:5-8 | from an empty store, N pushes give a cart of length N equal to the items in call order |
| Store.AddSameItemTwice | src/stores/CartStore.js:6-8 | pushing the same item twice yields two separate entries (no dedup or merge) |
| Store.AddAllKeepsEarlier | src/stores/CartStore.js:7 | pushes never change an element already in the cart |
| Pricing.TotalPriceIsSumOfItemPrices | src/pages/index.js:56-60 | the total equals the sum over the items of one ticket price (1200) each |
| Pricing.TotalPriceOfEmptyCart | src/pages/index.js:56-60 | an empty cart totals 0 |
| Pricing.TotalPriceIgnoresContents | src/pages/index.js:58 | two carts have the same total exactly when they have the same length, whatever their items |
| Pricing.TotalPriceOfAppend | src/pages/index.js:58 | one more item raises the total by exactly 1200 |
| Checkout.Step | src/pages/index.js:27-53 | only a submit with a product selected changes the cart, appending exactly {selected product, form values}; only showModal changes the selection and nothing clears it; the modal opens on showModal and closes on cancel and submit; the summary opens and closes regardless of the cart |
| Checkout.RunAppendOnly | src/pages/index.js:46-53 | over any series of handlers the old cart is a prefix of the new one |
| Checkout.SelectionFromLastShow | src/pages/index.js:27-54 | after a showModal(p) followed by any handlers other than showModal, the selected product is still p |
| Checkout.RunKeepsSomeSelection | src/pages/index.js:25-34 | once a product is selected no handler sequence brings the selection back to null |
| Checkout.RunWithoutShowKeepsSelection | src/pages/index.js:27-54 | handlers other than showModal leave the selected product as it was (it stays from the last showModal) |
| Checkout.RunCartGrowsBySubmissions | src/pages/index.js:46-53 | with a product selected, the cart grows by exactly the number of submits |
| Checkout.RunCartBoundedBySubmissions | src/pages/index.js:46-53 | no series of handlers adds more items than it has submits |
| Checkout.RunTotalPrice | src/pages/index.js:46-60 | with a product selected, the total grows by 1200 per submit |
| Checkout.SubmitWithoutSelection | src/pages/index.js:46-53 | with no product ever selected, submits leave the cart unchanged |
| Checkout.HandlersIdempotent | src/pages/index.js:27-42 | showModal, closeModal, showCartSummary and closeCartSummary are idempotent |
| Checkout.SummaryOpensOnEmptyCart | src/pages/index.js:36-38 | from the first render the summary opens with an empty cart and a total of 0 |
| Checkout.SingleBooking | src/pages/index.js:27-60 | select a product and submit once: the cart is exactly that one item, the modal is closed, the total is 1200 |
| Checkout.SameProductTwice | src/pages/index.js:27-60 | booking the same product twice gives two distinct items in order and a total of 2400 |
| Checkout.Home.constructor | src/pages/index.js:20-25 | the page starts with both modals hidden, nothing selected and a fresh empty store |
| Checkout.Home.ShowModal | src/pages/index.js:27-30 | selects the product and opens the modal; the cart and the summary flag are unchanged |
| Checkout.Home.CloseModal | src/pages/index.js:32-34 | hides the modal and changes nothing else |
| Checkout.Home.ShowCartSummary | src/pages/index.js:36-38 | shows the summary whatever the cart, changing nothing else |
| Checkout.Home.CloseCartSummary | src/pages/index.js:40-42 | hides the summary, changing nothing else |
| Checkout.Home.HandleFormSubmit | src/pages/index.js:46-54 | with a product selected appends exactly {product, passenger}; without one leaves the cart alone; always closes the modal and keeps the selection |
| Checkout.Home.CalculateTotalPrice | src/pages/index.js:56-60 | the total is one ticket price per item of the store's cart, 0 when empty |
| ProductFeed.GetStaticProps | src/pages/index.js:141-177 | the fetched products only on an ok response whose body parses; the empty list on a non-ok status or any exception; revalidate is 10 on every branch |
| ProductFeed.ServerErrorGivesEmptyCatalog | src/pages/index.js:155-167 | a status-500 response gives the empty catalog and revalidate 10, and no error escapes |

## Left out
- The request itself (`fetch`, `response.json()`) is network I/O and asynchronous; it becomes the `FetchOutcome` parameter of `GetStaticProps`. The `console.error` logging is output only.
- The JSON body is assumed to be a list of products; the code passes on whatever JSON it got.
- The `products = []` default of the page's props is not modelled: the catalog is only rendered, never read by the cart logic.
- Rendering (cards, modals, form, date picker, select), styling and the navigation bar are presentation.
- MobX reactivity and React hooks are framework plumbing; every state setter is a plain field assignment, applied at once.
- The form's own dispatch (`form.submit()`) is not modelled; `HandleFormSubmit` takes any passenger value.
- The travel date is kept as text; the date picker's object and its `toString()` display are not modelled.
- `Store.CartStore` holds `CartItem` values; the JavaScript store would accept an item of any shape.
- The unused import of `localStorage.json` has no behaviour.

# Storefront selection, cart and search — a Dafny model

This project models the logic under the markup of a small React shoe
storefront:

- the **product detail page** (`src/pages/ProductDetails.js`): it picks a
  variant on load, switches image and size on a colour change, takes a size,
  and builds the "Buy Now" order and the "Add to Cart" item;
- the **cart dialog** (`src/components/CartModal.js`): a quantity per item
  (clamped with `Math.max(1, q)`), the running total, the order lines posted
  on checkout, and the submit flags;
- the **home page search** (`src/pages/HomePage.js`): a case-insensitive,
  order-preserving substring filter over the products and each card's image.

Each page's state is a class (`ProductPage.ProductDetails`,
`Cart.CartModal`). Its fields are the component's state cells, and each event
handler is a method. The expressions the handlers evaluate are functions:
the variant lookup (`find`), `split`/`trim`/`toLowerCase`/`includes`, the
`reduce` folds, the `map` to order lines and the `filter`. The lemmas about
those functions carry the properties. Each network round trip is an input
(`FetchOutcome`, `OrderOutcome`). A handler that awaits the order request is
two methods: `BeginBuyNow`/`BeginSubmit` run up to the request and return the
posted order, and `FinishBuyNow`/`FinishSubmit` take the outcome.

Modules: `Wrappers` (Option), `Text` (string operations), `Store` (the
records), `Catalog` (home page), `ProductPage`, `Cart`.

Three behaviours of the code are kept as written:
- `handleColorChange` stores the chosen colour before it looks for a variant
  of that colour. An unknown colour therefore changes the selected colour and
  leaves the image and the size as they were.
- A quantity is read as `quantities[id] || 1`: the stored number, unless the
  entry is missing, 0 or NaN, in which case 1. A NaN stays stored as NaN and
  is read as 1.
- Order lines look quantities up by `backendId`, while the dialog stores and
  shows them by `id`.
  `Cart.KeyMismatchOrdersDefault` exhibits an item whose ordered quantity
  differs from the one shown. `Cart.LinesAgreeWithTotal` proves that the two
  agree whenever `id == backendId`. `ProductPage.CartItemFor` is the only item
  constructor in the code, and it always builds items with `id == backendId`.

## Model

| member | source | states |
|---|---|---|
| Text.Split | src/pages/ProductDetails.js:36 | `split(',')` yields at least one piece, and no piece holds a comma. The first piece is the text before the first comma, or all of it. |
| Text.JoinSplit | src/pages/ProductDetails.js:36 | Joining the pieces of a split with the separator gives back the input. |
| Text.SplitJoin | src/pages/ProductDetails.js:36 | Splitting a join of separator-free pieces gives back the pieces. |
| Text.TrimStart | src/pages/ProductDetails.js:36 | What it removes is whitespace, and it returns a suffix that does not start with whitespace. |
| Text.TrimEnd | src/pages/ProductDetails.js:36 | What it removes is whitespace, and it returns a prefix that does not end with whitespace. |
| Text.Trim | src/pages/ProductDetails.js:36 | The result has no whitespace at either end and is empty iff the input is all whitespace. Its characters come from the input. |
| Text.TrimPadded | src/pages/ProductDetails.js:136 | `trim` removes exactly the surrounding whitespace: padding a whitespace-free-ended text with whitespace and trimming gives the text back. |
| Text.TrimIdempotent | src/pages/ProductDetails.js:136 | Trimming twice equals trimming once. |
| Text.AllSpaceAppend | src/pages/ProductDetails.js:36 | Two all-whitespace texts concatenate to an all-whitespace text. |
| Text.LowerChar | src/pages/HomePage.js:7 | Each upper-case ASCII letter maps to its lower-case letter, `c + ('a' - 'A')`; every other character is kept. |
| Text.Lower | src/pages/HomePage.js:7 | `toLowerCase` keeps the length and maps each character on its own. |
| Text.LowerIdempotent | src/pages/HomePage.js:7 | Lowering a lowered text changes nothing. |
| Text.Contains | src/pages/HomePage.js:7 | `includes` is true for the empty query, and a text only includes queries no longer than itself. |
| Text.ContainsIffOccurs | src/pages/HomePage.js:7 | `includes` is true iff the query occurs at some position of the text. |
| Text.OccursShift | src/pages/HomePage.js:7 | An occurrence after position 0 is an occurrence in the text without its first character. |
| Text.ContainsEmpty | src/pages/HomePage.js:7 | Every text includes the empty text. |
| Catalog.Keep | src/pages/HomePage.js:6 | `filter` never lengthens the list. |
| Catalog.KeptIndices | src/pages/HomePage.js:6 | There is one position per kept element, and each lies inside the list. |
| Catalog.KeepIsSubsequence | src/pages/HomePage.js:6 | The filtered list is the subsequence at strictly increasing positions, and a position is taken iff its element is accepted. |
| Catalog.KeepAtKeptIndices | src/pages/HomePage.js:6 | The filtered list's i-th element is the element at the i-th kept position, and the kept positions increase. |
| Catalog.KeptIndicesExact | src/pages/HomePage.js:6 | A position is kept iff the callback accepts its element. |
| Catalog.KeepMembers | src/pages/HomePage.js:6 | An element is in the result iff it is in the list and accepted. |
| Catalog.KeepAll | src/pages/HomePage.js:6 | A list whose elements are all accepted is returned unchanged. |
| Catalog.KeepAgreeing | src/pages/HomePage.js:6 | Callbacks that agree on the list's elements give the same result. |
| Catalog.KeepAppend | src/pages/HomePage.js:6 | Filtering a concatenation concatenates the filtered parts. |
| Catalog.Matches | src/pages/HomePage.js:7 | A product matches iff its lowered name has the lowered query at some position. |
| Catalog.Filter | src/pages/HomePage.js:6-8 | A product is listed iff it is in the catalog and its lowered name contains the lowered query. |
| Catalog.FilterIsMatchingSubsequence | src/pages/HomePage.js:6-8 | The search results are the matching products, in catalog order. Each catalog position is kept iff its product matches. |
| Catalog.FilterEmptyQuery | src/pages/HomePage.js:6-8 | The empty query lists every product, in order. |
| Catalog.FilterIdempotent | src/pages/HomePage.js:6-8 | Searching the results again with the same query changes nothing. |
| Catalog.FilterCaseInsensitive | src/pages/HomePage.js:6-8 | Searching for the lowered query gives the same list as the query itself. |
| Catalog.FilterAppend | src/pages/HomePage.js:6-8 | Searching two catalogs one after the other gives the results of searching their concatenation. |
| Catalog.FirstImage | src/pages/HomePage.js:14-17 | The card image is the first variant's image, and the fallback URL for a product without variants. |
| ProductPage.FindColor | src/pages/ProductDetails.js:49 | `find` by colour returns the first position whose colour matches. It returns none iff no variant has that colour. |
| ProductPage.VariantIdFor | src/pages/ProductDetails.js:77 | `find(...)?.id` is absent iff no variant has the colour. Otherwise it is the id of the first variant of that colour. |
| ProductPage.DefaultSize | src/pages/ProductDetails.js:36 | The default size holds no comma and has no surrounding whitespace. |
| ProductPage.DefaultSizeBeforeFirstComma | src/pages/ProductDetails.js:36 | The default size is the trimmed text before the first comma (or the whole list when there is no comma). |
| ProductPage.SizeOptions | src/pages/ProductDetails.js:133-136 | The size list is never empty, and its head is the default size. |
| ProductPage.TrimAll | src/pages/ProductDetails.js:136 | `map(s => s.trim())` trims each piece in place. |
| ProductPage.SizeOptionsAreTrimmedPieces | src/pages/ProductDetails.js:133-136 | The size list is the comma-split of `sizes` with each piece trimmed. The untrimmed pieces join back to `sizes`, and no option holds a comma. |
| ProductPage.DisplayedSizes | src/pages/ProductDetails.js:133-136 | No size buttons are shown iff no variant has the selected colour. Otherwise the buttons are the trimmed comma-separated sizes of the first variant of that colour. |
| ProductPage.FirstVariantSizes | src/pages/ProductDetails.js:26-36 | After a load selects the first variant's colour, the size buttons are that variant's sizes, led by the size selected by default. |
| ProductPage.CartItemFor | src/pages/ProductDetails.js:183-190 | The cart item carries the product's fields (id, name, price, description, variants) and `backendId = product.id`. It also carries the selection, the selected colour's variant id and the shown image. |
| ProductPage.BuyNowOrder | src/pages/ProductDetails.js:69-81 | The Buy-Now order has one line: the product, the selected colour's variant id, the selected size and quantity 1. Its total is the product's price and its contact fields come from the form. |
| ProductPage.ProductDetails.constructor | src/pages/ProductDetails.js:7-20 | Before loading, there is no product, the selection is empty, the form is empty and the flags are off. |
| ProductPage.ProductDetails.Load | src/pages/ProductDetails.js:22-45 | A fetched product with variants selects the first variant's colour, image and default size. The image equals the catalog card's image, the form size follows, and the size list's head is that size. Without variants the selection is kept, and a failed fetch changes nothing. |
| ProductPage.ProductDetails.ShowVariant | src/pages/ProductDetails.js:51-54 | Shows the variant's image and puts its default size in both `selectedSize` and the form. |
| ProductPage.ProductDetails.ChangeColor | src/pages/ProductDetails.js:47-56 | The colour is always stored. The first variant of that colour supplies the image and the size, and the size list's head is the new size. With no such variant, image, size and form are unchanged. |
| ProductPage.ProductDetails.ChangeSize | src/pages/ProductDetails.js:58-61 | The size is taken unchecked into `selectedSize` and the form. Nothing else changes. |
| ProductPage.ProductDetails.EditName | src/pages/ProductDetails.js:219 | Only the form's name changes, and the form size stays equal to the selected size. |
| ProductPage.ProductDetails.EditEmail | src/pages/ProductDetails.js:231 | Only the form's email changes, and the form size stays equal to the selected size. |
| ProductPage.ProductDetails.EditPhone | src/pages/ProductDetails.js:243 | Only the form's phone changes, and the form size stays equal to the selected size. |
| ProductPage.ProductDetails.OpenOrderForm | src/pages/ProductDetails.js:175 | "Buy Now" shows the order form. |
| ProductPage.ProductDetails.CancelOrderForm | src/pages/ProductDetails.js:259 | "Cancel" hides the order form. |
| ProductPage.ProductDetails.AddToCart | src/pages/ProductDetails.js:182-191 | The item handed to the cart has `backendId = product.id`, the colour's variant id and the shown image. |
| ProductPage.ProductDetails.BeginBuyNow | src/pages/ProductDetails.js:63-88 | Entering submission sets `isSubmitting` and clears the error. The posted order is the Buy-Now order of the current selection and form. |
| ProductPage.ProductDetails.FinishBuyNow | src/pages/ProductDetails.js:90-101 | Submission always ends with `isSubmitting` off. Success closes the form. Failure shows the fixed retry message and leaves the selection unchanged. |
| Cart.Clamp | src/components/CartModal.js:22 | `Math.max(1, q)` keeps numbers at or above 1, raises smaller numbers to 1, and leaves NaN as NaN. |
| Cart.Shown | src/components/CartModal.js:99 | `quantities[id] \|\| 1` is the stored number when it is not 0, and 1 for a missing, 0 or NaN entry; it is never 0, and over clamped quantities it is at least 1. |
| Cart.Total | src/components/CartModal.js:19 | The `reduce` starts from 0, so an empty cart totals 0. How the fold splits over a first item, an append and a changed quantity is stated by `Cart.TotalCons`, `Cart.TotalAppend` and `Cart.TotalAfterChange`. |
| Cart.InitialQuantities | src/components/CartModal.js:15-17 | The initial quantities map exactly the items' ids, each to 1. |
| Cart.TotalAppend | src/components/CartModal.js:19 | The left-fold total of a concatenation is the sum of the parts' totals. |
| Cart.TotalCons | src/components/CartModal.js:19 | The total is the first item's price times its shown quantity plus the rest's total. |
| Cart.TotalOfSingles | src/components/CartModal.js:19 | When every item reads as quantity 1, the total is the sum of the prices. An empty cart totals 0. |
| Cart.InitialTotal | src/components/CartModal.js:15-19 | With the initial quantities, the total is the sum of the prices. |
| Cart.PriceSum | src/components/CartModal.js:19 | The plain sum of the prices is non-negative when no price is negative. |
| Cart.TotalAtLeastPriceSum | src/components/CartModal.js:19-22 | With clamped quantities and non-negative prices, the total is at least the sum of the prices, and so non-negative. |
| Cart.TotalAfterChange | src/components/CartModal.js:19-23 | Storing quantity k under an id changes the total by (k − the old shown quantity) × the prices of the items with that id. |
| Cart.NaNCountsAsMissing | src/components/CartModal.js:19 | A NaN quantity gives the same total as no entry at all. |
| Cart.OrderLines | src/components/CartModal.js:36-41 | There is one line per cart item, in cart order. Each line has shoe = `backendId`, variant = `variantId`, size = `selectedSize`, and the quantity looked up by `backendId`. |
| Cart.LinesAgreeWithTotal | src/components/CartModal.js:19-41 | When every item's `id` is its `backendId`, each line's quantity is the one displayed. Σ price × line quantity is then the order's total. |
| Cart.KeyMismatchOrdersDefault | src/components/CartModal.js:40 | An item stored under id 7 with backend id 3 is shown and charged as 2 pairs, but its line orders 1. |
| Cart.LineFor | src/components/CartModal.js:36-41 | An order line carries the item's backend id, variant id and size, and a quantity that is never 0, is 1 when the backend id has no entry, and is at least 1 over clamped quantities. |
| Cart.CartOrder | src/components/CartModal.js:31-42 | The posted contact fields are the form's, and the posted total is the displayed total. The items are the cart's order lines, in the cart's order: each carries its item's backend id, variant id, size and the quantity read under the backend id. |
| Cart.BuyNowIsSingleItemCheckout | src/pages/ProductDetails.js:69-81 | "Buy Now" posts the same order as adding the product to an empty cart and checking out with the default quantity. |
| Cart.CartModal.constructor | src/components/CartModal.js:5-17 | The dialog starts with the given items, each item id at quantity 1, an empty form and the flags off. |
| Cart.CartModal.ReceiveItems | src/components/CartModal.js:15-17 | A new item list from the owner keeps the quantity state. It is initialised only once: an item whose id has no entry reads as 1, and an id already in the map keeps its stored quantity. |
| Cart.CartModal.DisplayedQuantity | src/components/CartModal.js:99 | The quantity input shows `Cart.Shown` of the stored map: the stored number, or 1 for an id with no entry or a NaN entry, and always at least 1. |
| Cart.CartModal.DisplayedTotal | src/components/CartModal.js:19 | The displayed total is the fold over the items. With non-negative prices it is at least their sum and never negative. |
| Cart.CartModal.ChangeQuantity | src/components/CartModal.js:21-23 | Stores `Math.max(1, q)` under the id, and every other id keeps its quantity. A number reads back as max(1, q), and NaN reads back as 1. |
| Cart.CartModal.EditName | src/components/CartModal.js:126 | Only the form's name changes. |
| Cart.CartModal.EditEmail | src/components/CartModal.js:136 | Only the form's email changes. |
| Cart.CartModal.EditPhone | src/components/CartModal.js:146 | Only the form's phone changes. |
| Cart.CartModal.BeginSubmit | src/components/CartModal.js:25-48 | Entering submission sets `isSubmitting` and clears the error. The posted order is the cart order of the current items and quantities. |
| Cart.CartModal.FinishSubmit | src/components/CartModal.js:50-62 | Submission always ends with `isSubmitting` off. Success calls `onOrderComplete` and then `onClose`. Failure calls nothing and shows the fixed retry message. |

## Left out

- The HTTP calls (`fetch` of the product and of `POST /orders/`) and `response.json()` are not modelled. Each round trip is an input: a fetched product or a failure, and an accepted order (with its id) or a rejection. There are no timeouts, no cancellation and no interleaving of a late fetch with other events.
- `alert`, `console.error`, rendering, CSS classes, the `disabled` attribute of the submit button and the early return of a hidden dialog are view concerns and are not modelled.
- React's batching of state updates is not modelled: each handler is one atomic transition, and an awaiting handler is split at its `await` into two methods.
- Removing an item (`onRemove`) and appending one (`addToCart`) happen in the owner of the cart, whose code is not part of this model. Only the item record handed over (`ProductPage.CartItemFor`) and a changed item list (`Cart.CartModal.ReceiveItems`) are modelled.
- Prices and totals are whole numbers (cents). JavaScript's floating-point arithmetic and the `toFixed(2)` display are not modelled. The total's fallback to 0 for a missing item list or a NaN sum is not modelled: items are always a list, and an integer total is never NaN.
- Text.Lower: maps only the ASCII letters. The Unicode case mappings of `toLowerCase` are not modelled.
- Cart.Qty: a quantity is the result of `parseInt`, a whole number or NaN. The parsing of the typed text itself is not modelled.
- Ids are integers. JavaScript object keys are strings, so the model does not capture distinct ids whose string forms coincide.
- The product JSON is taken to be well formed (a `variants` list whose variants have `sizes` strings). A malformed body, which throws inside the handler and is logged, is not modelled.
- ProductPage.ProductDetails.ChangeColor and ProductPage.ProductDetails.BeginBuyNow: both require a loaded product. This holds in the source, because the colour buttons and the order form only exist once the product has been set.
- The order form's `address` field has no input in either form. It stays empty and is never sent.

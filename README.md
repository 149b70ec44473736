# Prime--Cart storefront: a Dafny model of its state logic

Prime--Cart is a client-side React storefront. This project models the logic that
sits under its markup and proves properties of it:

- the **cart store** (`Cart`): the reducer over cart lines (add, remove, update
  quantity, clear), the derived count, subtotal, tax and total, and the store object
  whose operations dispatch to the reducer;
- the **wishlist store** (`Wishlist`): an insertion-ordered list of saved products,
  at most one per id, with add, remove, membership and toggle;
- the **catalog query pipeline** of the home page (`Home`): category filter,
  case-insensitive search, sort by key, eight-per-page pagination, and the page
  state whose filter handlers return to page one;
- the **pagination bar** (`Pagination`): the window of at most five page numbers,
  the first/last buttons with their ellipses, and the disabled previous/next buttons;
- the **checkout page** (`Checkout`): the field-by-field validator with its email
  test, and the submit workflow (editing, processing, completed) that empties the
  cart;
- the **text helpers** `truncateText` and `capitalize` (`Formatters`), the
  **related-products** selection and its loading effect (`Related`), and the
  **theme** toggle (`Theme`).

Shared pieces: `Catalog` holds the product record and `Option`; `Text` holds the
JavaScript string operations the code relies on (`toLowerCase`, `toUpperCase`,
`trim`, `includes`); `Lists` holds `filter`, `slice` and the subsequence relation.

Modelling choices:

- Prices are whole cents (`nat`). Tax is the exact real `subtotal * 0.08` and the
  total is `subtotal + tax`, so no rounding enters the proofs.
- Stores are classes. Each operation replaces the state field with a pure function
  of the old state (the reducer or the state updater), and lemmas about those
  functions carry the properties. The pagination bar, which builds its page list
  with a loop, is a method with a `while` loop.
- `quantity || 1` is `Requested`: a zero quantity becomes one. JavaScript
  truthiness of an optional string (`if (activeCategory)`, `if (category)`,
  `if (!text)`) is "present and not empty".
- `Array.prototype.sort` on the local copy is an insertion sort (`SortBy`) that puts
  an element ahead of the first element it may precede, so it is stable like the
  engine's sort.
- The email regular expression `^[^\s@]+@[^\s@]+\.[^\s@]+$` is implemented as a
  split at the first `@` (`ValidEmail`). It is proved to accept exactly the strings
  of the pattern's language (`EmailPattern`).
- The search text is lowercased but not trimmed before filtering
  (src/pages/HomePage.jsx:55-56).
- "No category" is `null`, modelled as `None`; there is no separate "all" value
  (src/pages/HomePage.jsx:23).
- Tax is `subtotal * 0.08` with no rounding (src/context/CartContext.jsx:79).

## Model

| member | source | states |
|---|---|---|
| Cart.Reduce | src/context/CartContext.jsx:9-38 | `cartReducer`, defined by its body; its properties are in AddItemEffect, RemoveItemEffect, UpdateQuantityEffect, ClearAndOtherEffect, ReduceKeepsUnique and ReduceKeepsPositive |
| Cart.Requested | src/context/CartContext.jsx:16-20 | `quantity \|\| 1`, defined by its body; its use is stated in AddItemEffect and AddItemTotals |
| Cart.Count | src/context/CartContext.jsx:69-72 | `cartCount`, defined by its body; its properties are in AddItemTotals, RemoveItemTotals and EmptyCartTotals |
| Cart.Subtotal | src/context/CartContext.jsx:74-77 | `subtotal`, defined by its body; its properties are in AddItemTotals, RemoveItemTotals and EmptyCartTotals |
| Cart.Tax | src/context/CartContext.jsx:79 | `tax`, defined by its body; its properties are in TaxAndTotal and TotalsExample |
| Cart.Total | src/context/CartContext.jsx:80 | `total`, defined by its body; its properties are in TaxAndTotal and TotalsExample |
| Cart.Find | src/context/CartContext.jsx:12 | `find` by id succeeds exactly when some line has the id, and returns a line of the cart with that id |
| Cart.AddItemEffect | src/context/CartContext.jsx:11-21 | ADD_ITEM for an id already in the cart raises only that line's quantity, by `quantity \|\| 1`, keeping length and order; for a new id it appends exactly one line `(product, quantity \|\| 1)` at the end; the added amount is at least one for a non-negative quantity |
| Cart.RemoveItemEffect | src/context/CartContext.jsx:22-23 | on a cart with unique ids, REMOVE_ITEM deletes the line with the id and keeps the rest in order (`s[..k] + s[k+1..]`); it is a no-op for an absent id, and the id is absent afterwards |
| Cart.UpdateQuantityEffect | src/context/CartContext.jsx:24-32 | a quantity of zero or less behaves as REMOVE_ITEM; otherwise only the matching line's quantity is set, length and other lines kept; an absent id leaves the cart unchanged |
| Cart.ClearAndOtherEffect | src/context/CartContext.jsx:33-36 | CLEAR_CART yields the empty cart with a count of zero; an unrecognised action returns the state unchanged |
| Cart.ReduceKeepsUnique | src/context/CartContext.jsx:9-38 | every action preserves "at most one line per product id" |
| Cart.ReduceKeepsPositive | src/context/CartContext.jsx:11-32 | every action keeps every quantity at one or more, provided an added quantity is not negative |
| Cart.AddItemTotals | src/context/CartContext.jsx:11-77 | adding raises the count by `quantity \|\| 1` and the subtotal by that amount times the price on the receiving line (the existing line's, or the new product's) |
| Cart.RemoveItemTotals | src/context/CartContext.jsx:22-77 | removing the line with an id lowers the count by its quantity and the subtotal by its price times quantity |
| Cart.EmptyCartTotals | src/context/CartContext.jsx:69-80 | the empty cart has count, subtotal, tax and total zero |
| Cart.TaxAndTotal | src/context/CartContext.jsx:79-80 | tax is eight hundredths of the subtotal and the total is 1.08 times the subtotal |
| Cart.TotalsExample | src/context/CartContext.jsx:69-80 | two of a 10.00 item and one of a 5.50 item give count 3, subtotal 25.50, tax 2.04, total 27.54 |
| Cart.AddAllOneLine | src/context/CartContext.jsx:11-21 | a run of positive additions of a product absent from the cart leaves one line for it, at the end, holding the sum of the quantities |
| Cart.AddToLastLine | src/context/CartContext.jsx:12-19 | adding a positive quantity of the product on the last line raises that line only |
| Cart.CartStore.constructor | src/context/CartContext.jsx:41-45 | the store starts from the restored lines, or the empty cart when nothing was stored (which satisfies the invariant) |
| Cart.CartStore.Dispatch | src/context/CartContext.jsx:9-45 | the new lines are the reducer applied to the old lines and the action; the unique-id, positive-quantity invariant is kept for non-negative adds |
| Cart.CartStore.AddToCart | src/context/CartContext.jsx:51-54 | dispatches ADD_ITEM (default quantity 1); keeps the invariant for non-negative quantities and raises the count by `quantity \|\| 1` |
| Cart.CartStore.RemoveFromCart | src/context/CartContext.jsx:56-59 | dispatches REMOVE_ITEM; keeps the invariant and leaves no line with the id |
| Cart.CartStore.UpdateQuantity | src/context/CartContext.jsx:61-63 | dispatches UPDATE_QUANTITY and keeps the invariant |
| Cart.CartStore.ClearCart | src/context/CartContext.jsx:65-67 | the cart becomes empty |
| Wishlist.IsIn | src/context/WishlistContext.jsx:28-31 | `some(item => item.id === id)` holds exactly when some saved product has the id |
| Wishlist.Added | src/context/WishlistContext.jsx:16-19 | the add updater, defined by its body; its properties are in AddedEffect |
| Wishlist.Removed | src/context/WishlistContext.jsx:24 | the remove updater, defined by its body; its properties are in RemovedEffect |
| Wishlist.Toggled | src/context/WishlistContext.jsx:33-42 | the toggle, defined by its body; its properties are in ToggleFlips and ToggleTwice |
| Wishlist.AddedEffect | src/context/WishlistContext.jsx:15-21 | adding a product whose id is saved leaves the list unchanged, otherwise appends it at the end; ids stay unique and the saved ids gain exactly the product's id |
| Wishlist.RemovedEffect | src/context/WishlistContext.jsx:23-26 | removing deletes the product with the id and keeps the rest in order; an absent id is a no-op; the saved ids lose exactly that id and stay unique |
| Wishlist.ToggleFlips | src/context/WishlistContext.jsx:33-42 | toggling flips membership of the product's id, leaves every other id's membership alone and keeps ids unique |
| Wishlist.ToggleTwice | src/context/WishlistContext.jsx:33-42 | toggling twice restores membership; an absent product leaves the exact list, a present one ends up moved to the end |
| Wishlist.WishlistStore.constructor | src/context/WishlistContext.jsx:9 | the store starts from the restored list, or the empty list when nothing was stored |
| Wishlist.WishlistStore.IsInWishlist | src/context/WishlistContext.jsx:28-31 | true exactly when some saved product has the id |
| Wishlist.WishlistStore.AddToWishlist | src/context/WishlistContext.jsx:15-21 | the list becomes the add updater's result; ids stay unique and the product's id is saved |
| Wishlist.WishlistStore.RemoveFromWishlist | src/context/WishlistContext.jsx:23-26 | the list becomes the remove updater's result; ids stay unique and the id is no longer saved |
| Wishlist.WishlistStore.ToggleWishlist | src/context/WishlistContext.jsx:33-42 | the list becomes the toggled list; ids stay unique and the product's membership flips |
| Home.Selected | src/pages/HomePage.jsx:50-63 | what the category and search stages let through, defined by its body; its properties are in FilterStages and FilteredProducts |
| Home.InOrder | src/pages/HomePage.jsx:66-81 | the comparator of each sort key, defined by its body; its properties are in InOrderTotal and InOrderTrans |
| Home.SortBy | src/pages/HomePage.jsx:66-81 | the sort, defined by its body; its properties are in SortBySpec and SortByKeepsTies |
| Home.QueryResult | src/pages/HomePage.jsx:46-84 | what the pipeline promises of its result, defined by its body; established by FilteredProducts |
| Home.InsertKeepsTies | src/pages/HomePage.jsx:66-81 | inserting a product puts it at the front of the products tied with it and leaves every other tie group as it was |
| Home.SortByKeepsTies | src/pages/HomePage.jsx:66-81 | the sort is stable: for every product, the products with an equal key come out in the order they went in |
| Home.TiesInCatalogOrder | src/pages/HomePage.jsx:46-84 | tie groups carried unchanged from a subsequence of the catalog are in catalog order |
| Home.InOrderTotal | src/pages/HomePage.jsx:66-81 | each sort comparator orders any two products one way or the other |
| Home.InOrderTrans | src/pages/HomePage.jsx:66-81 | each sort comparator is transitive |
| Home.SortBySpec | src/pages/HomePage.jsx:66-81 | the sort yields a permutation of its input, every pair in comparator order |
| Home.SortedOrders | src/pages/HomePage.jsx:66-78 | a list in comparator order is non-decreasing in price for price-asc, non-increasing in price for price-desc and in rating for rating, and ascending by title for name |
| Home.FilterStages | src/pages/HomePage.jsx:47-63 | the category and search stages keep each product exactly as often as it occurs in the catalog when it has the active category and matches the lowercased query, drop it otherwise, and keep catalog order |
| Home.SortStage | src/pages/HomePage.jsx:65-83 | the sort stage is a permutation in comparator order, the default key changes nothing, and products with equal keys keep their relative order |
| Home.FilteredProducts | src/pages/HomePage.jsx:46-84 | the result holds exactly the selected products with their catalog multiplicities; every result has the active category and contains the query; products with equal sort keys appear in catalog order, and for the default key the whole result is a subsequence of the catalog; no filters give the catalog itself; price-asc is non-decreasing in price, price-desc and rating non-increasing in price and rating, name ascending by title |
| Home.TotalPages | src/pages/HomePage.jsx:87 | the page count is the ceiling of `n / 8`: enough pages for every item, no page beyond the last item, zero exactly for no items |
| Home.PageOf | src/pages/HomePage.jsx:88-91 | page `p` holds at most 8 items; up to the page count it is the non-empty slice `[(p-1)*8, min(n, p*8))`, beyond it it is empty |
| Home.PagesCoverResult | src/pages/HomePage.jsx:87-91 | pages `1..totalPages` concatenated in order are exactly the filtered list |
| Home.SeventeenProducts | src/pages/HomePage.jsx:87-91 | seventeen products make three pages of 8, 8 and 1, and page four is empty |
| Home.HomePage.constructor | src/pages/HomePage.jsx:22-25 | empty search, no category, default sort, page one |
| Home.HomePage.HandleSearchChange | src/pages/HomePage.jsx:30-33 | the search text takes the value and the page returns to one; nothing else changes |
| Home.HomePage.SettleSearch | src/pages/HomePage.jsx:27 | the debounced search catches up with the typed text; nothing else changes |
| Home.HomePage.HandleCategoryChange | src/pages/HomePage.jsx:35-38 | the category takes the value and the page returns to one; nothing else changes |
| Home.HomePage.HandleSortChange | src/pages/HomePage.jsx:40-43 | the sort key takes the value and the page returns to one; nothing else changes |
| Home.HomePage.PageChange | src/pages/HomePage.jsx:25 | the page takes the chosen value; nothing else changes |
| Home.HomePage.ClearFilters | src/pages/HomePage.jsx:159-164 | search empty, no category, default sort, page one |
| Home.HomePage.Visible | src/pages/HomePage.jsx:46-91 | the filtered list meets the pipeline's promise for the current query (the selected products, sorted by the key, ties in catalog order); the page count is its ceiling over 8; the shown page is exactly the current page's slice of it, at most 8 products each passing the filters, empty exactly when the current page is past the page count |
| Pagination.Layout | src/components/product/Pagination.jsx:4-74 | hidden exactly when there is at most one page; otherwise the window is the consecutive run `start..end` inside `1..totalPages` of length `min(5, totalPages)`, starting at `max(1, min(currentPage - 2, totalPages - 4))` so that it is centred on the current page where the ends allow, holding the current page when it exists; the "1" button shows exactly when page 1 is outside the window, the leading ellipsis exactly when page 2 is too, and symmetrically at the end; every page is in the window, behind a first/last button or behind an ellipsis; previous is disabled exactly on page 1 and next exactly on the last page |
| Checkout.Form.With | src/pages/CheckoutPage.jsx:50 | the named input takes the value and every other input keeps its own |
| Checkout.ValidEmail | src/pages/CheckoutPage.jsx:30 | the email test, defined by its body; its meaning is in EmailTestMatchesPattern |
| Checkout.FieldError | src/pages/CheckoutPage.jsx:25-36 | the message one input earns, defined by its body; its meaning is in FieldErrorSpec |
| Checkout.IndexOf | src/pages/CheckoutPage.jsx:30 | the position of the first occurrence of a character, or the length when it does not occur |
| Checkout.EmailTestMatchesPattern | src/pages/CheckoutPage.jsx:30 | the email test accepts exactly the strings in the language of `^[^\s@]+@[^\s@]+\.[^\s@]+$` |
| Checkout.ErrorSet.Cleared | src/pages/CheckoutPage.jsx:51 | the named entry becomes absent and every other entry is kept |
| Checkout.ErrorSet.Keys | src/pages/CheckoutPage.jsx:58 | the keys are exactly the inputs that have a message |
| Checkout.RequireFilled | src/pages/CheckoutPage.jsx:27-34 | a required input's entry is its "required" message exactly when its trimmed value is empty, and absent otherwise |
| Checkout.ValidateForm | src/pages/CheckoutPage.jsx:25-36 | each input's entry is the message that input earns, and the payment method gets none |
| Checkout.FieldErrorSpec | src/pages/CheckoutPage.jsx:25-36 | the payment method is never validated; each other text input is "required" exactly when blank after trimming; the email is "required" when blank, "invalid" when not blank and outside the pattern's language (tested untrimmed), and has no error otherwise |
| Checkout.InitialFormErrors | src/pages/CheckoutPage.jsx:15-36 | the initial form earns the "required" message on every one of the six text inputs, six errors in all |
| Checkout.OnlyEmailInvalid | src/pages/CheckoutPage.jsx:29-31 | a filled-in form with email "nope" has only the "Invalid email address" error |
| Checkout.ValidFormNoErrors | src/pages/CheckoutPage.jsx:25-36 | a filled-in form with a well-formed email passes validation |
| Checkout.CheckoutPage.constructor | src/pages/CheckoutPage.jsx:43-46 | the initial form, no errors, not processing, not submitted |
| Checkout.CheckoutPage.ShowsNothingToCheckout | src/pages/CheckoutPage.jsx:74 | the "nothing to checkout" screen shows exactly when the cart is empty and the order is not completed |
| Checkout.CheckoutPage.HandleChange | src/pages/CheckoutPage.jsx:48-52 | only the named input changes and only its error is cleared; processing and submitted are kept |
| Checkout.CheckoutPage.HandleSubmit | src/pages/CheckoutPage.jsx:54-63 | a form with errors records exactly the validator's errors and stays in editing; a passing form keeps its errors and moves to processing; the form is never changed |
| Checkout.CheckoutPage.Complete | src/pages/CheckoutPage.jsx:65-69 | the cart is emptied, processing ends and the order is completed, so the empty-cart screen is not shown |
| Checkout.TypeIn | src/pages/CheckoutPage.jsx:48-52 | one change event per input leaves the form holding exactly the typed values, with the submit flags untouched |
| Checkout.SubmitScenario | src/pages/CheckoutPage.jsx:54-74 | a form filled in input by input through the change handler, valid, over a non-empty cart goes editing, processing, completed and leaves the cart empty |
| Formatters.TruncateText | src/utils/formatters.js:8-11 | absent or empty text gives `''`; text of at most `maxLength` characters is unchanged; longer text gives its first `maxLength` characters followed by `…`, `maxLength + 1` characters in all |
| Formatters.TruncateBounds | src/utils/formatters.js:8-11 | the result is never longer than `maxLength + 1`, and apart from a final ellipsis it is a prefix of the text |
| Formatters.TruncateIdempotent | src/utils/formatters.js:8-11 | truncating a truncated text to the same limit changes nothing |
| Formatters.Capitalize | src/utils/formatters.js:13-16 | absent or empty gives `''`; otherwise the length is kept, the first character is upper-cased and the rest is unchanged |
| Formatters.CapitalizeIdempotent | src/utils/formatters.js:13-16 | capitalizing twice is capitalizing once |
| Formatters.CapitalizeKeepsLetters | src/utils/formatters.js:13-16 | capitalizing changes case only: lower-casing the result gives the lower-cased input |
| Related.Qualifies | src/components/product/RelatedProducts.jsx:19 | the filter test, defined by its body; its properties are in RelatedProducts |
| Related.RelatedProducts | src/components/product/RelatedProducts.jsx:18-20 | at most four products, each with the category and not the excluded id, forming a prefix of the qualifying products |
| Related.RelatedInCatalogOrder | src/components/product/RelatedProducts.jsx:18-20 | the selection is in catalog order |
| Related.RelatedTakesFirst | src/components/product/RelatedProducts.jsx:18-20 | a qualifying product with fewer than four qualifying products before it is selected, at the position given by their number |
| Related.NoneQualify | src/components/product/RelatedProducts.jsx:18-20 | with no other product of the category, the selection is empty |
| Related.RelatedSection.constructor | src/components/product/RelatedProducts.jsx:7-8 | no products, loading |
| Related.RelatedSection.Renders | src/components/product/RelatedProducts.jsx:34 | the section renders exactly when loading has finished and there are products |
| Related.RelatedSection.RunEffect | src/components/product/RelatedProducts.jsx:10-32 | a falsy category starts no load and changes nothing; otherwise loading ends unless cancelled, and an uncancelled response replaces the products by the selection while a failed or cancelled one keeps them |
| Related.SectionScenario | src/components/product/RelatedProducts.jsx:30-34 | without a category, or when no other product has it, the section is not shown |
| Theme.Toggled | src/context/ThemeContext.jsx:27 | the result is `'dark'` exactly when the theme was not `'dark'`, and `'dark'` becomes `'light'` |
| Theme.IsDark | src/context/ThemeContext.jsx:30 | `isDark`, defined by its body; its meaning is in ThemeStore.IsDarkTheme and ThemeStore.ToggleTheme |
| Theme.ToggleTwice | src/context/ThemeContext.jsx:27 | from `'dark'` or `'light'`, toggling twice returns the original theme |
| Theme.ToggleTwiceOther | src/context/ThemeContext.jsx:27 | any other theme value becomes `'dark'`, then `'light'` |
| Theme.InitialTheme | src/context/ThemeContext.jsx:7-11 | a non-empty stored theme is used as is; otherwise the system preference picks `'dark'` or `'light'` |
| Theme.ThemeStore.constructor | src/context/ThemeContext.jsx:14 | the theme starts as the initial theme |
| Theme.ThemeStore.IsDarkTheme | src/context/ThemeContext.jsx:30 | true exactly when the theme is `'dark'` |
| Theme.ThemeStore.ToggleTheme | src/context/ThemeContext.jsx:26-28 | the theme becomes the toggled theme and the dark flag flips |

## Left out

- Persistence: reading and writing the cart, wishlist and theme through local storage
  (`src/utils/storage.js` is not part of this model). Stored values enter as
  constructor parameters, and nothing is written back.
- Toast notifications, animation, markup, routing and the document title.
- The product fetch (`src/services/api.js` and `src/hooks/useProducts.js` are not part
  of this model). The catalog is a parameter. The related-products effect takes the
  fetch's outcome (`response`) and whether it was cancelled as parameters, and runs
  as one settled step.
- The 300 ms search debounce is the explicit step `SettleSearch`. The 1500 ms
  checkout timer is the explicit step `Complete`.
- `formatPrice`: it depends on `Intl.NumberFormat`.
- Floating-point money: prices are whole cents and tax is an exact real, so the
  floating-point rounding of `subtotal * 0.08` is not modelled.
- Catalog.Product: the rating (`rating.rate`, a float) is an integer number of tenths
  of a star, and the price a whole number of cents; ratings or prices with finer
  fractions are not modelled.
- `window.matchMedia` is the parameter `prefersDark`. Toggling the page's `dark`
  class is not modelled.
- Theme.InitialTheme: a stored theme is taken to be a string; a non-string JSON value
  read from storage is not modelled.
- Home.InOrder: `localeCompare` is modelled as lexicographic order on character codes,
  not locale collation.
- Text.Lower: case mapping covers ASCII letters only. Lengths count `char`s rather
  than UTF-16 code units.
- Cart.ReduceKeepsPositive: the quantity `|| 1` fallback is modelled for zero only;
  other falsy payloads (`undefined`, `NaN`) are not, since quantities are integers.
- Checkout.CheckoutPage.HandleSubmit: requires the form to be shown and its pay button
  enabled (cart not empty, not processing, not submitted), since that is the only way
  the page lets it be called.

# Storefront core in Dafny

This project models the logic of a React storefront. It covers:

- **the cart store**: a reducer over four tagged actions that recomputes the item count and subtotal from the lines after every change, and a provider that restores a saved cart by replaying one ADD_TO_CART per saved line;
- **the product catalog**: its seed data and its three queries (by id, by category with the `All` sentinel, and a case-insensitive search);
- **the session store**: sign-in against a list of accounts, sign-up that refuses a taken email, update and sign-out, and the stored copy of the session;
- **the listing page**: reads category, query and sort from the URL, picks its source list (search results or a category), applies an inclusive price filter and sorts by one of four keys, and has rules for setting or deleting each URL parameter;
- **the sign-up form**: field-by-field validation and the validate-then-register submit;
- **the page rules built on the stores**:
  - the cart line's increment, decrement and remove buttons;
  - the cart page's shipping, tax and total, and checkout;
  - the product page's quantity bound, related products, first image and add-to-cart;
  - the home page's featured products, new arrivals and category tiles;
  - the profile form and its merge into the session;
  - the product card's add button, favorite toggle, star row and link.

Amounts are integer cents and ratings are tenths of a star, so 4.8 stars is 48. Tax is a `real`. Dates are `YYYY-MM-DD` strings, ordered through the number yyyymmdd. A browser-storage entry is a `Snapshot`: nothing stored, text that does not parse, or a parsed value.

Files:

- `wrappers.dfy`, `types.dfy`: shared values and the record shapes.
- `text.dfy`: lower-casing, substring and trimming.
- `dates.dfy`: the date key.
- `seqs.dfy`: generic `filter` / `find` / `slice` and their facts.
- `array_sort.dfy`: the in-place sort.
- `cart_context.dfy`: the cart store.
- `products.dfy`: the catalog.
- `auth_context.dfy`: the session store.
- `products_page.dfy`, `cart_item.dfy`, `cart_page.dfy`, `product_detail_page.dfy`, `home_page.dfy`, `register_page.dfy`, `profile_page.dfy`, `product_card.dfy`: one module per page or component.

The state-changing parts are classes whose methods change their fields:

- the cart provider;
- the session provider;
- the listing page;
- the product page;
- the cart page;
- the sign-up page;
- the profile page.

The reducer, the queries and the page rules are functions. Where the source sorts an array in place, the model sorts an `array` in place.

## Model

| member | source | states |
|---|---|---|
| CartContext.LineAmount | src/contexts/CartContext.tsx:28 | one line's amount, `item.product.price * item.quantity` in cents, also shown per line at src/components/cart/CartItem.tsx:81 (no contract of its own; `CartItemView.ShownAmount` states that it is non-negative and the unit price for one item, and `WithoutProductTotals` that a remove subtracts it) |
| CartContext.TotalItems | src/contexts/CartContext.tsx:26-30 | `calculateCartTotals`' item count: the sum of the line quantities (no contract of its own; the lemmas below use it) |
| CartContext.Subtotal | src/contexts/CartContext.tsx:26-30 | `calculateCartTotals`' subtotal: the sum of price times quantity over the lines (no contract of its own) |
| CartContext.WithTotals | src/contexts/CartContext.tsx:26-30 | the stored item count and subtotal are the sums over the lines |
| CartContext.CartReducer | src/contexts/CartContext.tsx:32-80 | every recognised action leaves totals that agree with its lines; CLEAR_CART gives the empty cart; an unknown action returns the state unchanged |
| CartContext.IncreaseQuantity | src/contexts/CartContext.tsx:40-44 | the ADD_TO_CART `map`: every line for the id gets the added quantity (no contract of its own; `AddToExistingLine` and `IncreaseQuantityTotals` state what it changes) |
| CartContext.AddToExistingLine | src/contexts/CartContext.tsx:36-43 | adding a product already in the cart adds the quantity to its line only; the number, order and products of the lines are kept |
| CartContext.AddNewLine | src/contexts/CartContext.tsx:44-46 | adding a product not in the cart appends exactly one line `{product, quantity}` at the end |
| CartContext.AddTwiceMerges | src/contexts/CartContext.tsx:36-47 | adding q1 and then q2 of a product gives the same cart as adding q1 + q2 once |
| CartContext.AddTwiceGivesOneLine | src/contexts/CartContext.tsx:36-47 | from a cart without the product, two adds leave exactly one new line, holding q1 + q2 |
| CartContext.AddTotals | src/contexts/CartContext.tsx:34-51 | with one line per id, an add raises the item count by the quantity and the subtotal by the quantity times the unit price of the line it lands on |
| CartContext.IncreaseQuantityTotals | src/contexts/CartContext.tsx:40-44 | raising the one line for an id by q raises the totals by q and by q times its price |
| CartContext.WithoutProduct | src/contexts/CartContext.tsx:54 | the REMOVE_FROM_CART `filter`: the lines not for the id (no contract of its own; `WithoutProductAt`, `WithoutProductTotals` and `RemoveDropsExactlyThatProduct` state what it keeps) |
| CartContext.WithoutProductKeepsUnique | src/contexts/CartContext.tsx:53-57 | filtering out one id keeps one line per id |
| CartContext.WithoutProductAt | src/contexts/CartContext.tsx:53-57 | with one line per id, the filter removes exactly the line at its position and keeps the rest in order |
| CartContext.WithoutProductTotals | src/contexts/CartContext.tsx:53-57 | removing that line takes its quantity and amount off the sums |
| CartContext.RemoveDropsExactlyThatProduct | src/contexts/CartContext.tsx:53-57 | REMOVE_FROM_CART keeps exactly the lines for other ids, each as often as it was there and in order, and leaves the lines alone when the id is absent |
| CartContext.RemoveTotals | src/contexts/CartContext.tsx:53-57 | removal lowers the item count by the line's quantity and the subtotal by its amount |
| CartContext.UpdateNonPositiveIsRemove | src/contexts/CartContext.tsx:59-65 | UPDATE_QUANTITY with a quantity of zero or less gives the same state as REMOVE_FROM_CART |
| CartContext.ReplaceQuantity | src/contexts/CartContext.tsx:67-69 | the UPDATE_QUANTITY `map`: every line for the id gets the new quantity (no contract of its own; `UpdatePositiveSetsQuantity` states what it changes) |
| CartContext.UpdatePositiveSetsQuantity | src/contexts/CartContext.tsx:67-71 | a positive UPDATE_QUANTITY sets only the matching line's quantity, keeps products and order, and changes nothing when the id is absent |
| CartContext.ReducerKeepsUniqueIds | src/contexts/CartContext.tsx:32-80 | every action keeps the cart at one line per product id |
| CartContext.Replay | src/contexts/CartContext.tsx:89-95 | the cart reached by dispatching ADD_TO_CART for each saved line in order (no contract of its own; its properties are the next three rows) |
| CartContext.ReplayKeepsInvariant | src/contexts/CartContext.tsx:89-95 | replaying any saved lines yields one line per id, matching totals, and the saved lines' item count |
| CartContext.ReplayRebuildsLines | src/contexts/CartContext.tsx:89-95 | replaying lines that have one line per id rebuilds those lines, in order, with freshly computed totals |
| CartContext.RestoreRoundTrip | src/contexts/CartContext.tsx:85-100 | a consistent saved cart restores to itself |
| CartContext.RestoreCart | src/contexts/CartContext.tsx:85-100 | the restored cart is the replay of the saved lines, or the initial cart when nothing parses; totals are recomputed, not copied |
| CartContext.CartProvider.constructor | src/contexts/CartContext.tsx:82-104 | mounting restores the saved cart and writes it back to storage |
| CartContext.CartProvider.Dispatch | src/contexts/CartContext.tsx:102-104 | the cart becomes the reducer's answer, storage holds the new cart, and the invariant is kept |
| CartContext.CartProvider.AddToCart | src/contexts/CartContext.tsx:106-108 | dispatches ADD_TO_CART; the item count rises by the quantity |
| CartContext.CartProvider.RemoveFromCart | src/contexts/CartContext.tsx:110-112 | dispatches REMOVE_FROM_CART; no line for the id remains |
| CartContext.CartProvider.UpdateQuantity | src/contexts/CartContext.tsx:114-116 | dispatches UPDATE_QUANTITY |
| CartContext.CartProvider.ClearCart | src/contexts/CartContext.tsx:118-120 | the cart and its stored copy become the initial cart |
| Catalog.SeedCatalogWellFormed | src/data/products.ts:3-228 | the seed products have distinct ids, at least one image each, and a category listed after `All` |
| Catalog.CategoriesWellFormed | src/data/products.ts:230-238 | the category list starts with `All` and lists it nowhere else |
| Catalog.Products | src/data/products.ts:3-228 | the six seed products, field for field (a constant; its invariants are `SeedCatalogWellFormed`) |
| Catalog.Categories | src/data/products.ts:230-238 | the seed category list (a constant; its invariants are `CategoriesWellFormed`) |
| Catalog.GetProductById | src/data/products.ts:240-242 | the first product with the id, or none exactly when no product has it |
| Catalog.GetProductByIdFindsEach | src/data/products.ts:240-242 | in a catalog with distinct ids, each product's id looks up that product |
| Catalog.GetProductsByCategory | src/data/products.ts:244-249 | the whole catalog for `All`; otherwise exactly the products of that category, with their multiplicities, as a subsequence of the catalog |
| Catalog.SearchProducts | src/data/products.ts:251-259 | exactly the products whose lower-cased name, description or some tag contains the lower-cased query, with their multiplicities, as a subsequence of the catalog |
| Catalog.SearchEmptyQueryReturnsAll | src/data/products.ts:251-259 | the empty query returns the whole catalog |
| Catalog.MatchesQuery | src/data/products.ts:252-257 | the search test for one product: its lower-cased name, description or some tag includes the lower-cased query (no contract of its own; `SearchProducts` states that the search keeps exactly the products it holds for) |
| Text.Includes | src/data/products.ts:255 | `s.includes(sub)`: `sub` occurs at some position (no contract of its own; `IncludesEmpty` and `IncludesItself` are used by `SearchEmptyQueryReturnsAll` and `SearchFindsProductByName`) |
| Catalog.SearchIgnoresQueryCase | src/data/products.ts:252 | the query's letter case does not change the results |
| Catalog.SearchFindsProductByName | src/data/products.ts:253-258 | searching a product's own name in any case finds it |
| Text.ToLower | src/data/products.ts:252 | lower-casing keeps the length and lower-cases each character |
| Text.ToLowerIdempotent | src/data/products.ts:252 | lower-casing twice is lower-casing once |
| Text.Trim | src/pages/RegisterPage.tsx:39 | `s.trim()`: the string without leading and trailing white space (no contract of its own; `TrimEmptyIffBlank` states when it is empty) |
| Text.TrimEmptyIffBlank | src/pages/RegisterPage.tsx:39 | a string trims to empty exactly when it is all white space |
| Text.TrimsToEmpty | src/pages/RegisterPage.tsx:39 | the `!s.trim()` test is true exactly for blank strings |
| Text.Utf16Length | src/pages/RegisterPage.tsx:55 | `length` counts UTF-16 code units: at least the character count, and 0 exactly for the empty string |
| Text.Utf16LengthBmp | src/pages/RegisterPage.tsx:55 | inside the Basic Multilingual Plane the length is the character count |
| Text.Utf16LengthExample | src/pages/RegisterPage.tsx:55 | four letters and an emoji have length 6 |
| Seqs.FilterSubsequence | src/data/products.ts:248 | a filter's result is a subsequence of its input |
| Seqs.FilterMultiset | src/data/products.ts:248 | a filter keeps every kept element as often as it occurs, and no other |
| Seqs.FindIndex | src/data/products.ts:241 | the index of the first match, or none exactly when nothing matches |
| AuthContext.FindCredentials | src/contexts/AuthContext.tsx:36-38 | the first account whose email and password both match exactly, or none exactly when there is no such account |
| AuthContext.SessionUser | src/contexts/AuthContext.tsx:44-48 | the account's user fields, with the default avatar when its own is absent or empty |
| AuthContext.NewAccount | src/contexts/AuthContext.tsx:64-73 | the new account has the given id, email (or `''`) and password, the default avatar, and no addresses, payment methods or orders |
| AuthContext.LoginFindsRegistered | src/contexts/AuthContext.tsx:54-82 | after registering an email no account has, those credentials find the new account |
| AuthContext.RegisterKeepsLogins | src/contexts/AuthContext.tsx:76 | appending an account keeps every working login at the same account |
| AuthContext.AuthProvider.constructor | src/contexts/AuthContext.tsx:21-31 | a stored session that parses becomes the user; nothing stored or malformed data leaves no user; loading ends |
| AuthContext.AuthProvider.IsAuthenticated | src/contexts/AuthContext.tsx:97 | `!!user`: a user is signed in (no contract of its own; `Login`, `Logout` and `RegisterThenLogin` state how it changes) |
| AuthContext.AuthProvider.Login | src/contexts/AuthContext.tsx:33-53 | succeeds exactly when some account matches; on success the session and its stored copy are the first match's user; on failure it reports invalid credentials and keeps the session; loading ends either way |
| AuthContext.EmailTaken | src/contexts/AuthContext.tsx:58 | the duplicate-email `find` succeeds: some stored account has the given email (no contract of its own; `AuthProvider.Register` ensures `outcome.Fail? <==> EmailTaken(old(users), draft.email)`) |
| AuthContext.AuthProvider.Register | src/contexts/AuthContext.tsx:54-82 | fails with user-already-exists exactly when the email is taken, leaving the list alone; otherwise appends exactly the new account; the session is never touched; loading ends |
| AuthContext.AuthProvider.UpdateUser | src/contexts/AuthContext.tsx:84-87 | the given user becomes the session and its stored copy |
| AuthContext.AuthProvider.Logout | src/contexts/AuthContext.tsx:89-92 | no session and nothing stored |
| AuthContext.RegisterThenLogin | src/contexts/AuthContext.tsx:33-82 | registering a fresh email and then logging in with it signs in as the new account |
| ProductsPage.ParseParams | src/pages/ProductsPage.tsx:24-27 | absent or empty parameters read as category `All`, query `''` and sort `featured`; present ones are taken as they are |
| ProductsPage.ListingSource | src/pages/ProductsPage.tsx:36-38 | a non-empty query selects the search results, otherwise the category's products |
| ProductsPage.PriceFilter | src/pages/ProductsPage.tsx:41-43 | keeps exactly the products with lo <= price <= hi, with their multiplicities and order |
| ProductsPage.SortedByOption | src/pages/ProductsPage.tsx:46-62 | ascending by the option's key is price ascending, price descending, newest first or rating descending |
| ProductsPage.OrderedFor | src/pages/ProductsPage.tsx:46-62 | the order each option's comparator promises: price ascending, price descending, newest date first, rating descending, and any order otherwise (no contract of its own; `SortedCopy` and `FilterAndSort` ensure it) |
| Dates.DateKey | src/pages/ProductsPage.tsx:54 | the number yyyymmdd standing for `new Date(createdAt).getTime()`, which orders well-formed dates the same way (no contract of its own; `OrderedFor`, `HomePageView.NewestFirst` and `HomePageView.NewArrivals` order by it) |
| ProductsPage.SortKey | src/pages/ProductsPage.tsx:46-62 | each option's comparator as an ascending key: price, negated price, negated date key, negated rating; 0 for any other option (no contract of its own; `SortedByOption` states what it orders by) |
| ProductsPage.SortedCopy | src/pages/ProductsPage.tsx:46-62 | the sorted list is a permutation of the filtered list, in the option's order |
| ProductsPage.FilterAndSort | src/pages/ProductsPage.tsx:36-62 | the result is a permutation of the price-filtered source list, in the chosen order, and exactly that list for an option that does not sort |
| ProductsPage.UpdateFilters | src/pages/ProductsPage.tsx:69-97 | `All`, `featured` and an empty query delete their parameter; other values set it; omitted (or empty category and sort) values leave it alone |
| ProductsPage.UpdatedParams | src/pages/ProductsPage.tsx:72-94 | the category, sort and query edits applied in that order (no contract of its own; `UpdateFilters` computes it and `UpdateThenParse` states what it reads back as) |
| ProductsPage.UpdateThenParse | src/pages/ProductsPage.tsx:72-94 | reading the URL back gives the values just chosen and the old values for the others; other parameters are untouched |
| ProductsPage.EditLeavesOtherKeys | src/pages/ProductsPage.tsx:72-94 | editing one parameter leaves every other parameter as it was |
| ProductsPage.ClearedUrlReadsAsDefaults | src/pages/ProductsPage.tsx:120-126 | the bare listing URL reads as the defaults |
| ProductsPage.ProductsPageState.constructor | src/pages/ProductsPage.tsx:11-31 | the price range starts at [0, 2000] dollars and the first listing is shown |
| ProductsPage.ProductsPageState.Refresh | src/pages/ProductsPage.tsx:22-67 | the settings and the shown list are what the pipeline gives, and the location and price range are kept |
| ProductsPage.ProductsPageState.HandleCategoryChange | src/pages/ProductsPage.tsx:99-103 | the URL gets the category edit and the listing is recomputed |
| ProductsPage.ProductsPageState.HandleSortChange | src/pages/ProductsPage.tsx:105-109 | the URL gets the sort edit and the listing is recomputed |
| ProductsPage.ProductsPageState.HandlePriceRangeChange | src/pages/ProductsPage.tsx:111-113 | the price range is replaced and the listing is recomputed |
| ProductsPage.ProductsPageState.HandleSearchInput | src/pages/ProductsPage.tsx:248 | typing only changes the pending query |
| ProductsPage.ProductsPageState.HandleSearch | src/pages/ProductsPage.tsx:115-118 | the pending query is written to the URL and the listing is recomputed |
| ProductsPage.ProductsPageState.ClearFilters | src/pages/ProductsPage.tsx:120-126 | every setting returns to its default, the URL to `/products`, and the listing is recomputed |
| ArraySort.SortInPlace | src/pages/ProductsPage.tsx:46-62 | the array ends sorted by the key and is a permutation of its old contents |
| CartItemView.IncrementRequest | src/components/cart/CartItem.tsx:15-17 | UPDATE_QUANTITY to one more for this product (no contract of its own; `IncrementRaisesLine` states its effect) |
| CartItemView.DecrementRequest | src/components/cart/CartItem.tsx:19-23 | a decrement is requested exactly when the line holds more than one |
| CartItemView.ShownAmount | src/components/cart/CartItem.tsx:81 | the shown amount is the line's `LineAmount`: non-negative, and the unit price for one item |
| CartItemView.IncrementRaisesLine | src/components/cart/CartItem.tsx:15-17 | increment raises that line by one and leaves every other line as it was |
| CartItemView.DecrementLowersLine | src/components/cart/CartItem.tsx:19-23 | decrement lowers the line by one above one, and changes nothing at one |
| CartItemView.DecrementKeepsPositive | src/components/cart/CartItem.tsx:19-23 | from a cart of positive lines, a decrement never takes a line below one |
| CartItemView.RemoveRequest | src/components/cart/CartItem.tsx:25-27 | REMOVE_FROM_CART for this product (no contract of its own; `RemoveDropsLine` states its effect) |
| CartItemView.RemoveDropsLine | src/components/cart/CartItem.tsx:25-27 | remove drops exactly this line and keeps the others in order |
| CartPageView.ShippingCost | src/pages/CartPage.tsx:73 | shipping is free exactly from 100 dollars, otherwise 10 dollars |
| CartPageView.Tax | src/pages/CartPage.tsx:75-76 | tax is 8% of the subtotal, between 0 and the subtotal |
| CartPageView.OrderTotal | src/pages/CartPage.tsx:78 | the total is subtotal times 1.08 plus shipping, at least the subtotal |
| CartPageView.Render | src/pages/CartPage.tsx:26-70 | the confirmation after checkout, else the empty-cart view exactly for no lines, else the summary of those lines, their item count and subtotal, the shipping, the tax and the total |
| CartPageView.SummaryTotalCoversLines | src/pages/CartPage.tsx:72-78 | a shown summary's total is at least its subtotal, which is non-negative |
| CartPageView.CartPage.constructor | src/pages/CartPage.tsx:10 | the confirmation is initially hidden |
| CartPageView.CartPage.HandleCheckout | src/pages/CartPage.tsx:20-24 | checkout shows the confirmation and empties the cart and its stored copy |
| ProductDetailPageView.QuantityBound | src/pages/ProductDetailPage.tsx:46 | the bound is the stock, or 10 when there is no product or the stock is 0 |
| ProductDetailPageView.IsRelated | src/pages/ProductDetailPage.tsx:34-35 | a product of the same category (or any, for the All category) other than the product itself (no contract of its own; `RelatedProducts` and `RelatedCandidates` state the list in its terms) |
| ProductDetailPageView.RelatedProducts | src/pages/ProductDetailPage.tsx:34-36 | the first four catalog products related to the product (same category, other id), in catalog order; hence at most four, none the product itself, a subsequence of the catalog |
| ProductDetailPageView.RelatedCandidates | src/pages/ProductDetailPage.tsx:34-35 | the category's products without this one are exactly the catalog's related products, in order |
| ProductDetailPageView.RelatedAreFirstFound | src/pages/ProductDetailPage.tsx:34-36 | the list holds min(4, number of related products) products, and they are all the related products of a leading part of the catalog, so none is skipped |
| ProductDetailPageView.ProductDetailPage.constructor | src/pages/ProductDetailPage.tsx:12-16 | no product, no image, quantity 1, no related products |
| ProductDetailPageView.ProductDetailPage.Load | src/pages/ProductDetailPage.tsx:20-43 | a non-empty id loads the product with that id (none when unknown), its first image and related products; the quantity is kept |
| ProductDetailPageView.AcceptsQuantity | src/pages/ProductDetailPage.tsx:46 | `newQuantity >= 1 && newQuantity <= (product?.stock || 10)` (no contract of its own; `HandleQuantityChange` states that exactly these quantities are taken) |
| ProductDetailPageView.ProductDetailPage.HandleQuantityChange | src/pages/ProductDetailPage.tsx:45-49 | the quantity becomes n exactly when 1 <= n <= the bound, otherwise it stays |
| ProductDetailPageView.ProductDetailPage.HandleAddToCart | src/pages/ProductDetailPage.tsx:51-55 | adds the current quantity of the loaded product, or nothing without one |
| ProductDetailPageView.QuantityOutlivesProduct | src/pages/ProductDetailPage.tsx:20-49 | a quantity chosen for one product survives loading a product with less stock |
| HomePageView.Featured | src/pages/HomePage.tsx:16 | the first min(4, n) catalog products, in order |
| HomePageView.NewestFirst | src/pages/HomePage.tsx:20-21 | the new-arrivals comparator as an ascending key: the negated date key (no contract of its own; `NewestPrefix` and `NewArrivals` state the order it gives) |
| HomePageView.NewestPrefix | src/pages/HomePage.tsx:20-22 | the first entries of a newest-first list are newest first and no later entry is newer |
| HomePageView.NewArrivals | src/pages/HomePage.tsx:20-22 | min(4, n) catalog products, newest first, and no product left out is newer than any shown |
| HomePageView.CategoryTiles | src/pages/HomePage.tsx:74 | exactly the categories other than `All`, each as often as listed, in order |
| HomePageView.TileOpensItsCategory | src/pages/HomePage.tsx:77 | a tile's URL reads as its category with no query and the default sort |
| HomePageView.SeedTiles | src/pages/HomePage.tsx:74 | the seed's tiles are its categories after `All` |
| RegisterPageView.WithField | src/pages/RegisterPage.tsx:26-28 | the named input takes the value and the others keep theirs |
| RegisterPageView.EmailExamples | src/pages/RegisterPage.tsx:49 | the email pattern accepts `jane@shop.com` and rejects an address without a dot, without a name, or with a space before the `@` |
| RegisterPageView.LooksLikeEmail | src/pages/RegisterPage.tsx:49 | `/\S+@\S+\.\S+/.test`: a non-space character, `@`, non-space characters, `.` and a non-space character in a row (no contract of its own; the next two rows state what it accepts) |
| RegisterPageView.EmailHasAtThenDot | src/pages/RegisterPage.tsx:49 | an accepted address has an `@` after its first character and a `.` after it, before its last character |
| RegisterPageView.Submittable | src/pages/RegisterPage.tsx:36-65 | the forms `validateForm` accepts: both names and the email non-blank, the email shaped like an address, a password of at least six UTF-16 units and a matching confirmation (no contract of its own; `ValidateForm` ensures `valid <==> Submittable(form)`) |
| RegisterPageView.FiledFor | src/pages/RegisterPage.tsx:36-62 | for each field, the message its rule calls for is filed exactly when the rule fails, and no page-level message (no contract of its own; `ValidateForm` and `HandleSubmit` ensure it, `FiledForIsUnique` shows it fixes the map) |
| RegisterPageView.DraftOf | src/pages/RegisterPage.tsx:76-82 | the `register({...}, password)` argument: the form's names and email (no contract of its own; `HandleSubmit` ensures a Pass appends `NewAccount(DraftOf(formData), formData.password, id)`) |
| RegisterPageView.ValidateForm | src/pages/RegisterPage.tsx:36-65 | each field's message is filed exactly when its rule fails, with the message that rule calls for, at most one per field and no page-level message; the form is valid exactly when no message is filed, and exactly for submittable forms |
| RegisterPageView.FiledForIsUnique | src/pages/RegisterPage.tsx:36-65 | those rules determine the whole message map of a form |
| RegisterPageView.RegisterPage.constructor | src/pages/RegisterPage.tsx:8-16 | empty form, no messages, not loading |
| RegisterPageView.RegisterPage.RedirectIfSignedIn | src/pages/RegisterPage.tsx:20-24 | a signed-in visitor is sent to `/home` |
| RegisterPageView.RegisterPage.HandleChange | src/pages/RegisterPage.tsx:26-34 | the field changes, and its message is blanked when it had a non-empty one |
| RegisterPageView.RegisterPage.HandleSubmit | src/pages/RegisterPage.tsx:67-90 | an invalid form registers nothing and shows exactly the validation messages; a valid one registers its fields, then goes to `/login` when registration succeeds, or files the one form-level message when it fails; loading ends |
| ProfilePageView.InitialForm | src/pages/ProfilePage.tsx:10-14 | the user's names and email, or `''` with no user |
| ProfilePageView.WithField | src/pages/ProfilePage.tsx:16-22 | only the named field changes |
| ProfilePageView.Merge | src/pages/ProfilePage.tsx:27-30 | `{ ...user, ...formData }` (no contract of its own; `MergeKeepsTheRest`, `UnchangedFormIsNoOp` and `MergeThenRead` state what it keeps and sets) |
| ProfilePageView.MergeKeepsTheRest | src/pages/ProfilePage.tsx:27-30 | the merge takes the form's names and email and keeps id, avatar, addresses, payment methods and orders |
| ProfilePageView.UnchangedFormIsNoOp | src/pages/ProfilePage.tsx:27-30 | submitting the initial form gives back the same user |
| ProfilePageView.MergeThenRead | src/pages/ProfilePage.tsx:10-30 | the merged user fills the form with exactly the submitted values |
| ProfilePageView.ProfilePage.constructor | src/pages/ProfilePage.tsx:9-14 | not editing, and the form holds the user's fields |
| ProfilePageView.ProfilePage.ToggleEditing | src/pages/ProfilePage.tsx:49 | the Edit button flips edit mode |
| ProfilePageView.ProfilePage.HandleChange | src/pages/ProfilePage.tsx:16-22 | the form gets the named field's new value |
| ProfilePageView.ProfilePage.HandleSubmit | src/pages/ProfilePage.tsx:24-33 | with a user, the merged record becomes the session and edit mode ends; with none, nothing changes |
| ProductCardView.AddToCartRequest | src/components/products/ProductCard.tsx:17-21 | ADD_TO_CART of one of this product (no contract of its own; `AddButtonAddsOne` states its effect) |
| ProductCardView.AddButtonAddsOne | src/components/products/ProductCard.tsx:17-21 | the add button puts this product in the cart and raises the item count by exactly one |
| ProductCardView.ToggleFavorite | src/components/products/ProductCard.tsx:23-31 | removes the product's id exactly when it is a favorite, otherwise adds the product; one call either way |
| ProductCardView.Stars | src/components/products/ProductCard.tsx:73-76 | the row has five stars |
| ProductCardView.CountFilledPrefix | src/components/products/ProductCard.tsx:73-76 | of n stars with the first w filled, min(n, w) are filled |
| ProductCardView.FilledStarCount | src/components/products/ProductCard.tsx:73-76 | the card fills min(5, whole part of the rating) stars |
| ProductCardView.ProductLink | src/components/products/ProductCard.tsx:42 | the link is `/product/` followed by exactly the id |
| ProductCardView.LinkRoundTrip | src/components/products/ProductCard.tsx:42 | the product route reads the card's id back from its link |
| ProductCardView.LinkInjective | src/components/products/ProductCard.tsx:42 | different products link to different pages |

## Left out

- Rendering, CSS classes, animations, icons and `Intl.NumberFormat` formatting are presentation, so they are not modelled.
- `setTimeout` delays, effect timing, `async`/`await` and React's batching of state updates are not modelled. Each handler runs to completion, and the effect it triggers (the listing refresh, the product load) runs inside it.
- Loading flags that only pick a spinner are not modelled: the listing page's and the product page's. The session store's and the sign-up page's `isLoading` are modelled.
- `window.scrollTo`, `console.error` and navigation are left out. The sign-up page's route is a field.
- `Date.now()` is clock I/O, so the new account's id is a parameter.
- `localStorage` and JSON are browser I/O. Each stored entry is a `Snapshot`, so the text itself is not modelled. An empty stored string counts as nothing stored, as `if (saved)` treats it. A stored value that parses to something other than a user or a cart (`null`, say) is treated as malformed.
- CartContext.RestoreCart: every parsed saved line is taken to be a well-typed cart line, because the model does not check what `JSON.parse` returns.
- `src/data/users.json` is not part of this model. The initial account list is a constructor parameter. The favorites store (`FavoritesContext`) is not part of this model either, so the card's toggle is modelled as the call it makes, given `isFavorite`.
- ProductsPage.ProductsPageState.HandlePriceRangeChange: takes the bounds as integers already in cents. The range inputs pass `parseInt` of the field in dollars. A `NaN` bound (from an empty field) compares false and would empty the listing; it is not modelled.
- Money is integer cents and tax is an exact `real`. Floating-point rounding of subtotals and tax is not modelled.
- Text.ToLower: lower-cases ASCII letters only. Unicode case mapping is not modelled.
- `new Date(s).getTime()` is replaced by the number yyyymmdd. For a malformed date the key is 0. In the source such a date gives `NaN`, and `Array.sort`'s order is then unspecified.
- ArraySort.SortInPlace: stability is not stated. The insertion sort is stable, but no contract says equal keys keep their order. Engines' `Array.sort` is stable too. The same gap carries into ProductsPage.SortedCopy, ProductsPage.FilterAndSort and HomePageView.NewArrivals, which sort through it: their contracts fix the order only between different keys. No seed listing depends on ties, because the six seed products have distinct prices, ratings and dates.
- `URLSearchParams` is an unordered map from names to values. Repeated parameters, parameter order and percent-encoding are not modelled, and neither is the `pathname` part of the URL.
- ProductDetailPageView.ProductDetailPage.Load: a product with no images selects `""`, where the source reads `images[0]` as `undefined`.
- ProfilePageView.ProfilePage.constructor: the form is filled once, when the page mounts, as `useState` does. Later changes to the session do not refill it.
- Catalog.SeedCatalogWellFormed: does not state that every seed `createdAt` is a well-formed date. Every seed date is of the form yyyy-mm-dd.
- The catalog's reviews and specifications are carried in the data but no modelled rule reads them.
- These files are not part of this model:
  - `Header.tsx`, `Footer.tsx`, `LoginPage.tsx`, `App.tsx`, `ProductGrid.tsx` and `FavoritesPage.tsx`: navigation and markup only;
  - the UI components.

## Observation

As written, the product page never resets its quantity when another product loads. A quantity chosen for one product can therefore exceed the stock of the next one. The add button then adds more than the bound the picker enforces. `ProductDetailPageView.QuantityOutlivesProduct` exhibits this. Choose 5 of a product with stock 10, then open a product with stock 3: the page holds 5.

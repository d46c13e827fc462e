# Jewelia storefront, modelled in Dafny

This project models the client-side logic of a small jewellery storefront
written in React and TypeScript. The model covers these parts:

- The product catalog store and the wishlist store. Each holds an ordered list that the store replaces on every change.
- The shop page's query pipeline: four filter criteria combined with AND, followed by a stable sort on one of four keys.
- The admin panel's product form.
- The product page and the product card.
- The account page's address book and its login error message.
- The order summaries of the cart and checkout pages, and the checkout step machine.
- The home page's two product rows.
- The seed catalog, which is the initial state of the catalog store.

Stores and pages that change their state step by step are classes:

- `CatalogStore`, `WishlistStore` and `ShopPage`;
- `AdminPanel`, `ProductPage`, `AccountPage` and `CheckoutPage`.

Each of them has `seq` fields and methods whose contracts give the new state
in terms of pure functions of the old state. The properties of the shop,
catalog and address logic are proved as lemmas about those functions.

Modules:

- `Common`: Option, plus list filter/find/some and the distinct-values idiom.
- `Text`: upper-casing, trimming, split/join and character replacement.
- `ProductModel`: the product record, the creation draft and the shallow merge of a partial record.
- `Seed`: the nineteen seed products.
- `Catalog`, `Wishlist`, `Shop` and `Admin`.
- `ProductDetails` and `ProductCard`.
- `Account`, `CartPage`, `Checkout` and `Home`.

Modelling conventions:

- Ratings are kept as whole tenths of a star. For example, 4.5 is 45.
- Prices and totals are whole rupees.

## Model

| member | source | states |
|---|---|---|
| ProductModel.ParseCollection | src/context/ProductContext.tsx:14 | a parsed collection name is the name of the collection it returns |
| ProductModel.ParseCollectionName | src/context/ProductContext.tsx:14 | the four collection names are distinct: each parses back to its own collection |
| ProductModel.WithDefaults | src/context/ProductContext.tsx:51-56 | the completed product has the given id, rating 4.5 and 0 reviews, and carries every other field of the draft unchanged |
| ProductModel.WithDefaultsOfDraft | src/context/ProductContext.tsx:51-56 | a product with the default rating and reviews is exactly its own draft completed with its id |
| ProductModel.MergeNoChanges | src/context/ProductContext.tsx:63 | merging an empty partial record leaves the product as it was |
| ProductModel.MergeIdempotent | src/context/ProductContext.tsx:63 | merging the same partial record twice is the same as merging it once |
| ProductModel.MergeDraft | src/context/ProductContext.tsx:63 | merging a complete draft makes every draft field the draft's, and keeps id, rating and reviews |
| Catalog.MaxId | src/context/ProductContext.tsx:50 | the result is an upper bound of the ids and is one of the ids |
| Catalog.NextId | src/context/ProductContext.tsx:50 | the new id is 1 for an empty catalog, otherwise one more than some live id, and above every live id |
| Catalog.AddedAppends | src/context/ProductContext.tsx:49-57 | an add grows the list by one and keeps the earlier entries in order; the new entry has the next id, rating 4.5, 0 reviews and the draft's fields |
| Catalog.AddedKeepsIdsUnique | src/context/ProductContext.tsx:50-57 | an add keeps ids pairwise distinct |
| Catalog.DeleteAfterAddReusesId | src/context/ProductContext.tsx:50-70 | deleting the product just added restores the list, and the next add gets the same id again |
| Catalog.Updated | src/context/ProductContext.tsx:60-66 | an update keeps the length of the list |
| Catalog.UpdatedOnlyMatching | src/context/ProductContext.tsx:60-66 | entries with another id stay as they were; entries with the id are merged with the partial record |
| Catalog.UpdateAbsentIsNoop | src/context/ProductContext.tsx:60-66 | updating an id no entry has changes nothing |
| Catalog.UpdatedKeepsIdsUnique | src/context/ProductContext.tsx:60-66 | an update whose partial record carries no other id keeps ids distinct |
| Catalog.DeleteRemovesExactly | src/context/ProductContext.tsx:68-70 | every entry with another id keeps its multiplicity, and entries with the id are gone |
| Catalog.DeleteKeepsOrder | src/context/ProductContext.tsx:68-70 | no survivor has the id, and delete distributes over concatenation, so relative order is kept |
| Catalog.DeleteAbsentIsNoop | src/context/ProductContext.tsx:68-70 | deleting an id no entry has changes nothing |
| Catalog.WithoutKeepsIdsUnique | src/context/ProductContext.tsx:68-70 | a delete keeps ids distinct |
| Catalog.UniqueIdsOccurOnce | src/context/ProductContext.tsx:50 | with distinct ids, every product in the catalog occurs exactly once |
| Catalog.ByIdUnique | src/context/ProductContext.tsx:72-74 | with distinct ids, the lookup returns a product exactly when it is in the catalog with that id |
| Catalog.ByCollectionExact | src/context/ProductContext.tsx:76-78 | the collection query returns only that collection, and each of its products as often as in the catalog |
| Catalog.ByCategoryExact | src/context/ProductContext.tsx:80-82 | the category query returns only that category, and each of its products as often as in the catalog |
| Catalog.OptionListsExact | src/pages/AdminPanel.tsx:12-13 | the category and style option lists have no duplicates, contain exactly the values some product has, start with the first product's value, and list categories in order of first appearance |
| Catalog.SeedNextId | src/data/products.ts:7-49 | the seed ids are distinct and the first product added to the seed gets id 20 |
| Catalog.CatalogStore.constructor | src/context/ProductContext.tsx:47 | the store starts with the seed catalog, whose ids are distinct |
| Catalog.CatalogStore.AddProduct | src/context/ProductContext.tsx:49-58 | the new list is the old one with the completed draft appended, and distinct ids stay distinct |
| Catalog.CatalogStore.UpdateProduct | src/context/ProductContext.tsx:60-66 | the new list is the old one with matching entries merged; ids stay distinct unless the partial record carries another id |
| Catalog.CatalogStore.DeleteProduct | src/context/ProductContext.tsx:68-70 | the new list is the old one without the id, and distinct ids stay distinct |
| Catalog.CatalogStore.GetProductById | src/context/ProductContext.tsx:72-74 | the result is none exactly when no product has the id; otherwise it is the first product with that id |
| Catalog.CatalogStore.GetProductsByCollection | src/context/ProductContext.tsx:76-78 | every result is a catalog product of that collection, and every such product is in the result |
| Catalog.CatalogStore.GetProductsByCategory | src/context/ProductContext.tsx:80-82 | every result is a catalog product of that category, and every such product is in the result |
| Wishlist.AddedCases | src/context/WishlistContext.tsx:31-35 | adding an id already present changes nothing; otherwise the item is appended and the rest is kept |
| Wishlist.AddedIdempotent | src/context/WishlistContext.tsx:30-37 | adding the same item twice gives the same list as adding it once |
| Wishlist.MembershipAfterAddRemove | src/context/WishlistContext.tsx:30-45 | after an add the id is present, and after a remove it is absent |
| Wishlist.RemovedExact | src/context/WishlistContext.tsx:39-41 | a remove drops exactly the items with the id, keeps the others in order, and is a no-op for an absent id |
| Wishlist.AddedKeepsIdsDistinct | src/context/WishlistContext.tsx:30-37 | an add keeps ids pairwise distinct |
| Wishlist.RemovedKeepsIdsDistinct | src/context/WishlistContext.tsx:39-41 | a remove keeps ids pairwise distinct |
| Wishlist.ReplayKeepsIdsDistinct | src/context/WishlistContext.tsx:28-41 | ids stay pairwise distinct under any sequence of adds and removes |
| Wishlist.ToggledFlips | src/components/ProductCard.tsx:31-40 | the heart-button toggle flips membership of the product's id |
| Wishlist.WishlistStore.constructor | src/context/WishlistContext.tsx:28 | the wishlist starts empty |
| Wishlist.WishlistStore.AddToWishlist | src/context/WishlistContext.tsx:30-37 | the new list is the add of the item, and ids stay distinct |
| Wishlist.WishlistStore.RemoveFromWishlist | src/context/WishlistContext.tsx:39-41 | the new list is the old one without the id, and ids stay distinct |
| Wishlist.WishlistStore.IsInWishlist | src/context/WishlistContext.tsx:43-45 | true exactly when some item has the id |
| Shop.FilteredExact | src/pages/Shop.tsx:49-55 | every result is a catalog product meeting all four criteria, and every product meeting them appears as often as in the catalog |
| Shop.CompareIsRankDifference | src/pages/Shop.tsx:59-62 | each of the four comparators is the difference of an integer rank, with best-sellers ranking first under 'featured' |
| Shop.Insert | src/pages/Shop.tsx:58-63 | inserting adds exactly the one element |
| Shop.StableSort | src/pages/Shop.tsx:58-63 | the sorted list is a permutation of its input |
| Shop.InsertSorted | src/pages/Shop.tsx:58-63 | inserting into a sorted list keeps it sorted |
| Shop.StableSortSorted | src/pages/Shop.tsx:58-63 | the sorted list is in non-decreasing rank order |
| Shop.InsertWithRank | src/pages/Shop.tsx:58-63 | inserting an element puts it ahead of every element of equal rank |
| Shop.StableSortStable | src/pages/Shop.tsx:58-63 | for every rank, the entries of that rank appear in the sorted list exactly as, and in the same order as, in the input |
| Shop.ResultsExact | src/pages/Shop.tsx:48-64 | the shown list holds exactly the matching catalog products, each as often as in the catalog, and so once each when ids are distinct |
| Shop.ResultsOrdered | src/pages/Shop.tsx:58-63 | no pair of shown products is out of order under the comparator of the selected key |
| Shop.PriceOrders | src/pages/Shop.tsx:59-60 | 'price-low' shows prices non-decreasing, and 'price-high' shows them non-increasing |
| Shop.RatingOrder | src/pages/Shop.tsx:61 | 'rating' shows ratings non-increasing |
| Shop.FeaturedOrder | src/pages/Shop.tsx:62 | under any other key every best-seller precedes every other product, a missing flag counting as false |
| Shop.ResultsStable | src/pages/Shop.tsx:58-63 | products with equal keys keep their relative catalog order |
| Shop.ToggleMembership | src/pages/Shop.tsx:68-73 | a toggle adds the value exactly when it was absent, and leaves every other value's membership alone |
| Shop.ToggleTwiceRestores | src/pages/Shop.tsx:68-73 | toggling an unselected value twice restores the list |
| Shop.ToggleTwiceMovesToEnd | src/pages/Shop.tsx:68-73 | toggling a selected value twice gives the list without it followed by the value, so the list is restored only as a set |
| Shop.ToggleKeepsNoDups | src/pages/Shop.tsx:68-73 | toggles never create a duplicate selection |
| Shop.UrlSelections | src/pages/Shop.tsx:28-46 | a missing or empty parameter selects 'all' or no category; a present one is taken verbatim, and a category-only link is titled after that category |
| Shop.PageTitleCases | src/pages/Shop.tsx:75-81 | the title is the capitalised collection plus "'s Collection", else "Shop <cat>s" for a single category, else "All Jewelry" |
| Shop.ShopPage.constructor | src/pages/Shop.tsx:28-32 | collection and category come from the URL; no styles, a cap of 50000 and the 'featured' sort |
| Shop.ShopPage.SyncWithUrl | src/pages/Shop.tsx:41-46 | a URL change resets collection and categories and leaves styles, cap and sort alone |
| Shop.ShopPage.HandleCategoryChange | src/pages/Shop.tsx:68-70 | the category selection is toggled and nothing else changes |
| Shop.ShopPage.HandleStyleChange | src/pages/Shop.tsx:71-73 | the style selection is toggled and nothing else changes |
| Shop.ShopPage.SelectCollection | src/pages/Shop.tsx:107 | the chosen collection becomes the selection and nothing else changes |
| Shop.ShopPage.SetPriceRange | src/pages/Shop.tsx:138 | the slider's value becomes the price cap and nothing else changes |
| Shop.ShopPage.SetSortBy | src/pages/Shop.tsx:148 | the chosen sort key becomes the page's sort and nothing else changes |
| Shop.ShopPage.FilteredProducts | src/pages/Shop.tsx:48-65 | the shown products are a permutation of the catalog filtered by the page's current criteria, sorted by the selected key, and the products of each key value appear in catalog order |
| Admin.AccessOnlyForAdmin | src/pages/AdminPanel.tsx:28 | access is granted exactly to a signed-in user whose email is exactly 'admin@jewelia.com' |
| Admin.DefaultFormChoices | src/pages/AdminPanel.tsx:15-26 | a blank form selects the catalog's first category and style ('' for an empty catalog) and has one empty image field |
| Admin.SubmittedFlags | src/pages/AdminPanel.tsx:45-51 | the submission is on sale exactly when originalPrice > 0 and originalPrice > price, never a best-seller, and in stock exactly when the stock count is positive |
| Admin.SubmittedImages | src/pages/AdminPanel.tsx:50 | submitted images are the form's images without the whitespace-only ones, with multiplicity and order kept |
| Admin.EditSaveRoundTrip | src/pages/AdminPanel.tsx:45-84 | editing a product whose flags agree with the submit rules and saving unchanged leaves it as it was |
| Admin.SeedSaleFlagNotDerivable | src/data/products.ts:14 | seed product 6 is flagged on sale, but the submit rule derives false for it, so an unchanged edit and save clears the flag |
| Admin.RemoveAt | src/pages/AdminPanel.tsx:102 | removing an in-range index shifts the later fields down by one, and an out-of-range index changes nothing |
| Admin.AdminPanel.constructor | src/pages/AdminPanel.tsx:9-26 | the panel starts with a blank form, no product being edited and the form hidden |
| Admin.AdminPanel.ShowAddForm | src/pages/AdminPanel.tsx:111 | the form is shown and nothing else changes |
| Admin.AdminPanel.ResetForm | src/pages/AdminPanel.tsx:60-67 | the form is blank, no product is being edited and the form is hidden |
| Admin.AdminPanel.HandleEdit | src/pages/AdminPanel.tsx:69-84 | the product is being edited and the form shows its fields, with a missing original price as 0 and no images as one empty field |
| Admin.AdminPanel.HandleSubmit | src/pages/AdminPanel.tsx:43-58 | the edited product is updated with the submission, or else the submission is added; the form is then reset and catalog ids stay distinct |
| Admin.AdminPanel.HandleDelete | src/pages/AdminPanel.tsx:86-90 | the product is deleted only when confirmed, and ids stay distinct |
| Admin.AdminPanel.AddImageField | src/pages/AdminPanel.tsx:92 | one empty image field is appended and nothing else changes |
| Admin.AdminPanel.UpdateImageField | src/pages/AdminPanel.tsx:94-98 | only the field at the index changes, and the primary image follows it only for index 0 |
| Admin.AdminPanel.RemoveImageField | src/pages/AdminPanel.tsx:100-104 | the field is removed only when there is more than one, so the list never becomes empty |
| ProductCard.CardCartCallCases | src/components/ProductCard.tsx:43-52 | no call when inStock is false or absent; otherwise id, name, price and image and no size |
| ProductCard.CardWishlistToggle | src/components/ProductCard.tsx:29-41 | the wishlist becomes the toggle of the product's summary, membership flips and ids stay distinct |
| ProductCard.CountFilledPrefix | src/components/ProductCard.tsx:118-128 | a row whose first f positions are filled has min(n, max(0, f)) filled stars |
| ProductCard.FilledStars | src/components/ProductCard.tsx:118-128 | the filled stars number min(5, floor(rating)) for a non-negative rating, and the filled ones come first |
| ProductDetails.PageViewLookup | src/pages/ProductDetails.tsx:19-33 | the page shows the first product with the route id, and the not-found view exactly when none has it |
| ProductDetails.RelatedSpec | src/pages/ProductDetails.tsx:20 | related products share the category, exclude the id, number at most four and are the first four such in catalog order |
| ProductDetails.StockLabelCases | src/pages/ProductDetails.tsx:173-187 | "In Stock" iff in stock with more than five, "Only n left" iff in stock with one to five, "Out of Stock" otherwise |
| ProductDetails.SeedNeverOutOfStock | src/pages/ProductDetails.tsx:181-186 | no seed product shows "Out of Stock" |
| ProductDetails.MainImageFallback | src/pages/ProductDetails.tsx:92 | the main image is the selected gallery entry when present and non-empty, else the primary image; always the primary for seed products |
| ProductDetails.SizeSelectorNeverShown | src/pages/ProductDetails.tsx:202 | as written, the size selector shows for no seed product, since the rings are filed under 'Ring' |
| ProductDetails.SizeSelectorForRings | src/pages/ProductDetails.tsx:202-211 | with the intended test the selector shows for exactly the five seed rings |
| ProductDetails.QuantityClamps | src/pages/ProductDetails.tsx:233-242 | − never goes below 1 and + never above the stock count (1 when it is 0); each moves by one when it can |
| ProductDetails.DetailsCartCallMatchesCard | src/pages/ProductDetails.tsx:35-44 | the page adds to the cart exactly when the card would, with the same record plus the selected size and without the quantity |
| ProductDetails.ProductPage.constructor | src/pages/ProductDetails.tsx:12-14 | the first image, no size and quantity 1 |
| ProductDetails.ProductPage.SelectImage | src/pages/ProductDetails.tsx:99-102 | the thumbnail becomes the selection, and the main image follows it |
| ProductDetails.ProductPage.SelectSize | src/pages/ProductDetails.tsx:208-211 | the size becomes the selection while the selector is shown |
| ProductDetails.ProductPage.DecrementQuantity | src/pages/ProductDetails.tsx:233 | the quantity becomes max(1, q − 1) and stays at least 1 |
| ProductDetails.ProductPage.IncrementQuantity | src/pages/ProductDetails.tsx:242 | the quantity becomes min(stock count or 1, q + 1), and stays at least 1 for a non-negative stock count |
| ProductDetails.ProductPage.HandleAddToCart | src/pages/ProductDetails.tsx:35-44 | no call for a product out of stock; otherwise id, name, price, image and the selected size |
| ProductDetails.ProductPage.HandleWishlistToggle | src/pages/ProductDetails.tsx:46-57 | removes the product when listed, otherwise adds its summary; membership flips and ids stay distinct |
| Text.Capitalize | src/pages/Account.tsx:55 | the first character is upper-cased, and the rest is kept |
| Text.CapitalizeIdempotent | src/pages/Shop.tsx:77 | capitalising twice is capitalising once |
| Text.TrimEmptyIffBlank | src/pages/AdminPanel.tsx:50 | a string trims to '' exactly when it is whitespace only |
| Text.Split | src/pages/Account.tsx:54 | there is at least one part, and no part contains the separator |
| Text.JoinSplit | src/pages/Account.tsx:54 | joining the parts of a split with the separator gives back the string |
| Text.SplitAtFirst | src/pages/Account.tsx:54 | the first part of a split ends at the first separator |
| Text.ReplaceAll | src/pages/Account.tsx:54 | every occurrence of the character is replaced and nothing else changes |
| Account.ErrorMessageFormat | src/pages/Account.tsx:54-55 | for a code 'a/b…', the message is the second segment with dashes as spaces and a capital first letter, or the fallback when that segment is empty |
| Account.ErrorMessageExample | src/pages/Account.tsx:54-55 | "auth/invalid-credential" becomes "Invalid credential" |
| Account.ErrorMessageFallback | src/pages/Account.tsx:54 | a missing code, or one without a '/', gives "An unknown error occurred" |
| Account.ErrorMessageClean | src/pages/Account.tsx:54-55 | the message is never empty and contains no '-' and no '/' |
| Account.InitialTabCases | src/pages/Account.tsx:29 | the tab is 'profile' exactly when no other tab is named; a named tab is taken verbatim |
| Account.SavedEditOnly | src/pages/Account.tsx:66-67 | saving an edit replaces only the addresses with the edited id by the new fields, keeping the id and default flag |
| Account.SavedNewAppends | src/pages/Account.tsx:69-74 | a new address is appended with the clock id and is the default exactly when the list was empty |
| Account.DeletedExact | src/pages/Account.tsx:85-89 | a delete removes exactly the addresses with the id |
| Account.WithDefaultExact | src/pages/Account.tsx:91-93 | after set-default exactly the addresses with the id are default, so with distinct ids at most one is, and exactly one when the id is listed |
| Account.SavedNewKeepsValid | src/pages/Account.tsx:69-74 | a new address with a fresh clock id keeps ids distinct and at most one default |
| Account.SavedEditKeepsValid | src/pages/Account.tsx:66-67 | saving an edit of a listed address keeps ids distinct and at most one default |
| Account.DeletedKeepsValid | src/pages/Account.tsx:85-89 | a delete keeps ids distinct and at most one default |
| Account.AccountPage.constructor | src/pages/Account.tsx:29-34 | the tab comes from the URL; the address list is the one default address; no form is shown |
| Account.AccountPage.SyncTab | src/pages/Account.tsx:36-41 | a present, non-empty tab parameter switches the tab; otherwise nothing changes |
| Account.AccountPage.OpenNewAddressForm | src/pages/Account.tsx:172 | the form opens for a new address |
| Account.AccountPage.CancelAddressForm | src/pages/Account.tsx:252 | the form closes; the address being edited, the tab and the addresses stay |
| Account.AccountPage.HandleEditAddress | src/pages/Account.tsx:80-83 | the form opens on the address |
| Account.AccountPage.HandleSaveAddress | src/pages/Account.tsx:65-78 | an edit or an append as above, then the form closes; the address-book invariant is kept |
| Account.AccountPage.HandleDeleteAddress | src/pages/Account.tsx:85-89 | the delete happens only when confirmed, keeping the invariant |
| Account.AccountPage.HandleSetDefault | src/pages/Account.tsx:91-93 | the address becomes the only default, keeping the invariant |
| CartPage.ShippingThreshold | src/pages/Cart.tsx:32-34 | shipping is free exactly above 2000, and the total exceeds the subtotal by 0 or 99 |
| CartPage.ViewCases | src/pages/Cart.tsx:9-66 | an empty cart shows the empty view; otherwise one amount per line, price times quantity, and total = subtotal + shipping |
| CartPage.RequestsStepByOne | src/pages/Cart.tsx:57-61 | the buttons ask for one less and one more for the line's id, without clamping |
| Checkout.WithAddressNumbering | src/pages/Checkout.tsx:52-59 | a new address is appended with id count + 1 and the draft's fields, default exactly for an empty list, and ids stay 1..n and distinct |
| Checkout.TaxIsRounded | src/pages/Checkout.tsx:99 | the tax is within half a rupee of 18% of the subtotal, with halves rounding up |
| Checkout.TotalIsCartTotalPlusTax | src/pages/Checkout.tsx:97-100 | the checkout total is the cart's total (same shipping rule) plus the tax |
| Checkout.CheckoutPage.constructor | src/pages/Checkout.tsx:21-50 | step 1, address 1 selected, no payment method, one default address and a blank form |
| Checkout.CheckoutPage.SelectAddress | src/pages/Checkout.tsx:158-186 | the address becomes the selection |
| Checkout.CheckoutPage.SetShowAddressForm | src/pages/Checkout.tsx:196 | the form is shown or hidden |
| Checkout.CheckoutPage.EditNewAddress | src/pages/Checkout.tsx:211-268 | the draft is replaced |
| Checkout.CheckoutPage.HandleAddAddress | src/pages/Checkout.tsx:52-71 | the draft is appended as the next address, and the form is blanked and hidden |
| Checkout.CheckoutPage.ContinueToPayment | src/pages/Checkout.tsx:291-293 | step 1 moves to 2 exactly when an address is selected |
| Checkout.CheckoutPage.Back | src/pages/Checkout.tsx:313-315 | step 2 always moves back to 1 |
| Checkout.CheckoutPage.ReviewOrder | src/pages/Checkout.tsx:319-321 | step 2 moves to 3 only with a payment method, which is never chosen, so the page never leaves step 2 this way |
| Checkout.CheckoutPage.HandlePlaceOrder | src/pages/Checkout.tsx:73-77 | placing an order alerts and then empties the cart |
| Home.RowsSpec | src/pages/Home.tsx:9-10 | each row has at most four catalog products with the flag set and is the first four such in catalog order |
| Home.SeedRows | src/pages/Home.tsx:9-10 | on the seed catalog the featured ids are [1, 7, 14, 17] and the sale ids are [6] |
| Seed.SeedIds | src/data/products.ts:7-49 | nineteen products with ids 1..19 in strictly increasing order |
| Seed.SeedStock | src/data/products.ts:7-49 | every seed product is in stock with a positive count and price and has no gallery |
| Seed.SeedCollections | src/data/products.ts:7-49 | seed collections are only women and men, and no product has an original price |
| Seed.SeedRings | src/data/products.ts:7-46 | the rings are products 1–4 and 18, filed under 'Ring'; no category is 'rings' |
| Seed.SeedFlags | src/data/products.ts:7-43 | the best-sellers are products 1, 7, 14 and 17, and only product 6 is on sale |

## Left out

- The authentication context is not part of this model. It is a wrapper over Firebase sign-in, sign-up and sign-out. The admin gate takes the signed-in user as a parameter, and the account page's login and registration calls are left out. Only their error-message formatting is modelled.
- The cart store is not part of this model. Its lines and total price are inputs to the cart and checkout summaries. The card's and the product page's add-to-cart are modelled as the call they would make.
- Browser effects are parameters or outputs:
  - `window.confirm` is a boolean `confirmed`.
  - `Date.now()` is the integer `now`.
  - `alert` and the cart clearing are the returned `Effect` list.
  - The WhatsApp link, `window.open` and console output are left out.
- Checkout.Tax: modelled as 18% rounded to the nearest rupee in exact arithmetic, halves up. The floating-point product `subtotal * 0.18` can round differently at an exact half.
- Ratings are whole tenths. The floor of a rating is therefore `rating / 10`, and 4.5 is 45.
- `parseInt` of route ids and form strings, `toLocaleString` and `encodeURIComponent` are left out. Ids and prices arrive as integers.
- React scheduling is left out.
  - Each handler sees the state of the previous render and runs to completion.
  - `addProduct` reads `products` while appending to `prev`, so two adds in one render could share an id. The model assumes one add per render.
- ProductModel.Merge: a partial record can supply values but cannot set an optional field back to absent.
- Text.UpperChar: upper-cases ASCII letters only. JavaScript's `toUpperCase` also maps other letters, and it can lengthen a string.
- Admin.AdminPanel.UpdateImageField: requires an index inside the list. The page only calls it for existing fields; writing past the end of a JavaScript array is not modelled.
- Shop.ShopPage.FilteredProducts: the source sorts the freshly filtered array in place. The model sorts a value with a stable insertion sort, so the in-place update is not modelled; the result's contents, order and stability are.
- ProductDetails.ProductPage.SelectSize: uses the corrected size-selector test (see Findings), so it can be called for ring products.
- Checkout's third step (the order review) and the payment options are left out. The payment step offers no option that sets a method, so the third step cannot be reached.
- Rendering, routing, styling and the presentational pages (about, contact, navbar, footer) are left out.

## Findings

| source | as written | input that shows it | evidently intended | confidence | as-written member | corrected member |
|---|---|---|---|---|---|---|
| src/pages/ProductDetails.tsx:202 | the size selector shows only when the category is 'rings' | any seed ring, e.g. product 1, whose category is "Ring" | show ring sizes for ring products, i.e. category "Ring" | medium, not executed | ProductDetails.SizeSelectorNeverShown | ProductDetails.SizeSelectorForRings |

# CookEasy core in Dafny

CookEasy is a grocery app written in React. A photo of a dish is turned into a list of
ingredients. Each ingredient is matched to a product, from the shop's product database
or, failing that, from six built-in Coles catalogs with a keyword fallback. The customer
reviews the list, fills a cart, pays, and manages a profile. An admin dashboard edits
products, recipes and orders.

This project models the deterministic logic under the screens:

- the ingredient-to-product resolver (`generateMockProduct`) and the database-first lookup;
- the review list and the cart merge;
- checkout totals with the threshold delivery fee;
- the admin collection handlers and dashboard statistics;
- the payment form's formatters and validators;
- product options, default address and card selection;
- recipe "add all" and category quick-add.

Each source file has its own module:

| module | models | form |
|---|---|---|
| `Catalog` and `CatalogData` | constants.ts | pure |
| `App` | App.tsx | mixed |
| `IngredientReview` | components/IngredientReviewScreen.tsx | mixed |
| `ShoppingBag` | components/ShoppingBagScreen.tsx | mixed |
| `Payment` | components/PaymentScreen.tsx | mixed |
| `ProductDetail` | components/ProductDetailScreen.tsx | mixed |
| `Profile` | components/ProfileScreen.tsx | mixed |
| `AdminDashboard` | components/AdminDashboard.tsx | mixed |
| `RecipeDetail` | components/RecipeDetailScreen.tsx | pure |
| `CategoryDetail` | components/CategoryDetailScreen.tsx | pure |

- `CatalogData` holds the six catalog arrays.
- `Types` holds the record shapes of types.ts.
- `Text` holds the JavaScript string operations the code uses:
  - ASCII `toLowerCase`;
  - `trim` over the ECMAScript white-space set;
  - `includes`;
  - first-occurrence `replace`;
  - the `\D` and `\s` strips.
- `Seqs` holds `filter` and counting.

**State.** A React component's state becomes a class: the App, review, bag, payment,
product, profile and dashboard screens.

- The class fields are the `useState` variables.
- Each handler is a method. Its `modifies` clause names the fields it sets, and its
  `ensures` clause gives their new values.
- A callback into the parent component becomes a value the method returns. For example,
  `HandleSaveProduct` returns the product to add or update.

**Loops and step-by-step code.** Loops in the source are methods with loop invariants,
each proved against a specification function:

- the `forEach` merge of `handleAddToCart` (`App.MergeItems`, against `App.MergeAll`);
- the `forEach` option pushes of `getOptionsForProduct` (`ProductDetail.PushDietaryOptions`).

Straight-line code that builds a value statement by statement is a method proved equal
to a function: the `if` chain of `getOptionsForProduct` (`ProductDetail.PushBaseOptions`,
against `ProductDetail.BaseOptions`) and the rule-by-rule `validate`
(`Payment.PaymentForm.Validate`, against `Payment.ValidationErrors`).

**Parameters.** These source values are passed in as parameters:

- every `Math.random()` draw, as a `Draw`, a real in [0, 1), collected in a `Draws` record;
  a `roll: nat -> Draws` gives the draws of the i-th call;
- the random id tokens, `Date.now()` and the formatted date, as strings;
- the outcome of `confirm()`, as a boolean;
- the catalogs, as a `Catalogs` value (`CatalogData.ColesCatalogs()` is the shipped one).

**Numbers.** Money is an exact `real`.

## Model

| member | source | states |
|---|---|---|
| Catalog.Sections | constants.ts:227-405 | the six catalogs are consulted in the order Vegetables, Meat, Fruits, Seafood, Bakery, Dairy |
| Catalog.Find | constants.ts:227-230 | the index found is the first entry whose lower-cased name contains the query or whose stop-word-stripped, trimmed name the query contains; none is found exactly when no entry matches |
| Catalog.EntryMatches | constants.ts:227-230 | the `find` predicate of one entry; `Catalog.Find` states what it picks |
| Catalog.Scan | constants.ts:227-405 | the hit is the first matching entry of the earliest catalog with any match, and there is none exactly when no catalog matches |
| Catalog.ResolveCases | constants.ts:222-455 | the result is built from the first hit of the first catalog with a hit, or it is the fallback exactly when no catalog has a hit |
| Catalog.FirstHitUnique | constants.ts:227-405 | the first-hit position is unique |
| Catalog.ResolveAtHit | constants.ts:227-405 | at a known first hit, the result is that entry's record |
| Catalog.CatalogHit | constants.ts:232-405 | a hit copies name, price and image, takes the size as weight and "per size" as unit price, takes the catalog's category, and is 'Best Price' only for a vegetable whose draw exceeds 0.8, otherwise 'Exact match' |
| Catalog.SectionCategory | constants.ts:232-405 | the k-th catalog consulted carries the k-th of Vegetables, Meat, Fruits, Seafood, Bakery, Dairy as category |
| Catalog.FromHitShape | constants.ts:232-405 | the record built from an entry of section k copies its name, price and image, takes its size as weight and "per size" as unit price, takes section k's category, and is 'Best Price' exactly for a vegetable with a draw above 0.8, 'Exact match' otherwise |
| Catalog.FromHit | constants.ts:232-405 | the record built for a catalog hit; `Catalog.FromHitShape` and `Catalog.CatalogHit` state its fields |
| Catalog.HitIgnoresDraws | constants.ts:232-405 | the catalog-derived fields of a hit do not depend on any random draw |
| Catalog.ResolveAtMiss | constants.ts:408-454 | without a catalog hit, the result is the fallback product |
| Catalog.FirstGroup | constants.ts:425-431 | the group found is the first keyword group the lower-cased name contains a word of; none is found exactly when no group matches |
| Catalog.FirstGroupAt | constants.ts:425-431 | group g is found exactly when it matches and no earlier group does |
| Catalog.GroupLabelOrder | constants.ts:425-431 | with distinct labels, the label of group g is chosen exactly when g matches and no earlier group does, and the default exactly when no group matches |
| Catalog.FallbackCategoryOrder | constants.ts:425-431 | the fallback category is the first matching group of Meat, Seafood, Fruits, Vegetables, Dairy, Bakery, and 'Pantry' exactly when none matches |
| Catalog.FallbackCategory | constants.ts:425-431 | the keyword category; `Catalog.FallbackCategoryOrder` states the order and the Pantry default |
| Catalog.PhotoId | constants.ts:209-219 | the generic photo is chosen exactly for categories outside the six catalog categories, which have their own photo |
| Catalog.CategoryPlaceholder | constants.ts:209-219 | `getCategoryPlaceholder`; `Catalog.CategoryPlaceholderDefault` states when it is the generic image |
| Catalog.CategoryPlaceholderDefault | constants.ts:209-219 | the generic image is returned exactly for categories outside the six catalog categories |
| Catalog.AllergenIndex | constants.ts:417-419 | the allergen picked is `floor(draw * 4)`, always a valid index of the four allergens |
| Catalog.FallbackMatchTypeRanges | constants.ts:409-413 | the four match types split the first draw at 0.4, 0.6 and 0.8 |
| Catalog.FallbackMatchType | constants.ts:409-413 | the match type from the first draw; `Catalog.FallbackMatchTypeRanges` states its thresholds |
| Catalog.FallbackAllergens | constants.ts:417-419 | there is one allergen, from the four possible ones, exactly when the draw exceeds 0.8, and none otherwise |
| Catalog.FallbackDietary | constants.ts:421-423 | the dietary types start with Organic and Halal, include Vegan exactly when its draw exceeds 0.5 and Keto exactly when its draw exceeds 0.7, and number two to four |
| Catalog.FallbackShape | constants.ts:408-454 | the fallback has brand MarketChoice and weight 500g; its category and placeholder image come from the keywords; its match type follows the 0.4, 0.6 and 0.8 thresholds; it is named "Organic name" exactly for an exact match and "name Alternative" otherwise; its allergens and dietary types are the drawn ones |
| Catalog.Fallback | constants.ts:408-454 | the fallback product; `Catalog.FallbackShape` states its fields |
| Catalog.Resolve | constants.ts:222-455 | `generateMockProduct`; `Catalog.ResolveCases`, `Catalog.ResolveAtHit` and `Catalog.ResolveAtMiss` state which record it returns |
| Catalog.EmptyQueryTakesFirstVegetable | constants.ts:71-72 | an empty query matches the first vegetable entry, since every name contains "" |
| Types.Extend | types.ts:59-61 | an extended review item is the review item plus its selection flag, and gives back that item |
| Types.LineTotalConcat | App.tsx:365 | the price × quantity sum splits over concatenation |
| Types.LineTotalNonNegative | App.tsx:365 | lines with non-negative prices and quantities sum to a non-negative amount |
| App.FindProductFrom | App.tsx:272-275 | the index found is the first product whose lower-cased name contains the query or is contained in it; none is found exactly when no product matches |
| App.NameMatches | App.tsx:274 | the `find` predicate: either lower-cased name contains the other; `App.FindProductInDatabase` states what it picks |
| App.FindProductInDatabase | App.tsx:272-275 | the result is None exactly when no product matches; otherwise it is a product of the database that matches |
| App.MatchProduct | App.tsx:278 | a name found in the database yields a matching database product; otherwise the resolver's product |
| App.GetMatchingProducts | App.tsx:276-280 | gives one product per ingredient name, in order, each from the database-first lookup |
| App.LookupPrefersDatabase | App.tsx:276-280 | a name present in the database is never resolved from the catalogs |
| App.ItemIdInjective | App.tsx:286 | distinct indices give distinct `item-i` ids |
| App.AnalysisItems | App.tsx:282-292 | gives one item per ingredient, in order, with the ingredient unchanged, quantity 1, selected, no options, the looked-up product, and the id `item-i` at position i |
| App.AnalysisIdsDistinct | App.tsx:282-292 | the review items of an analysis have pairwise distinct ids |
| App.FindLine | App.tsx:322 | the index found is the first cart line holding the product id; none is found exactly when no line does |
| App.MergeOne | App.tsx:321-331 | an item with quantity ≤ 0 leaves the cart unchanged; otherwise the cart either keeps its length or gets the item appended, and existing lines keep their place, id, ingredient, product and options |
| App.MergeAll | App.tsx:318-333 | the `forEach` merge of all items as a fold of `MergeOne`; `App.MergeAllQty`, `App.MergeAllKeepsValid` and `App.MergeAllKeepsLines` state its effect |
| App.MergeOneKeepsValid | App.tsx:321-331 | merging one item keeps product ids distinct and quantities positive |
| App.MergeAllKeepsValid | App.tsx:319-332 | the whole merge keeps product ids distinct and quantities positive |
| App.QtyOfAppend | App.tsx:329 | appending a line adds its quantity to its product's total |
| App.QtyOfUpdate | App.tsx:324-327 | rewriting a line of the same product changes that product's total by the quantity difference |
| App.MergeOneQty | App.tsx:321-331 | merging one item adds its quantity, if positive, to its own product's total and leaves every other product's total unchanged |
| App.MergeAllQty | App.tsx:319-332 | after the merge each product's total is its old total plus the positive quantities the items carry for it |
| App.MergeAllKeepsLines | App.tsx:319-332 | existing lines stay in place and in order with their id, ingredient, product and options; only their quantities change, and new lines come after them |
| App.MergeItems | App.tsx:319-332 | the `forEach` loop over a copy of the cart computes exactly the merge fold |
| App.ApplyPurchase | App.tsx:345-357 | the lines with the selected id take the purchase's product, quantity and options and keep their id, ingredient and flag; every other line is unchanged |
| App.CheckoutTotal | App.tsx:365-367 | the payment total agrees with the bag screen's total: subtotal plus threshold fee |
| App.CustomerName | App.tsx:374 | the customer name is the user's name, or 'Guest' when there is no user or the name is empty |
| App.OrderNumber | App.tsx:369 | the order number is floor(draw × 10000) + 1000, in 1000..10999 |
| App.NewOrder | App.tsx:368-375 | the order's total is subtotal plus fee, with status 'Order received', items equal to the cart, the given date, the customer name, no partner, and an `ORD-` id |
| App.StepQuantity | App.tsx:434 | the stepped quantity is q + delta, clamped below at 1 |
| App.StepCart | App.tsx:434 | the stepper changes only the quantity of the lines with that id |
| App.StepKeepsValid | App.tsx:434 | the stepper keeps product ids distinct and quantities positive |
| App.StepUndo | App.tsx:434 | stepping up and back down by the same amount restores a valid cart |
| App.RemoveCartLine | App.tsx:436 | removal keeps exactly the lines with another id, each as often as before, in order |
| App.RemoveKeepsValid | App.tsx:436 | removal keeps product ids distinct and quantities positive |
| App.ReplaceById | App.tsx:232-234 | update replaces the entries with that id in place, keeps every id, and leaves the rest unchanged; the recipe update at App.tsx:256-258 is the same map |
| App.DeleteProduct | App.tsx:238-240 | delete keeps exactly the products with another id, each as often as before, in order |
| App.ReplaceAbsent | App.tsx:232-234 | updating an id that is not present changes nothing |
| App.UpdateOrderStatus | App.tsx:241-252 | the orders with that id get the status, and the passed partner or else their old partner; all else is unchanged |
| App.DeleteRecipe | App.tsx:259-261 | delete keeps exactly the recipes with another id, each as often as before, in order |
| App.FlipFavorite | App.tsx:264 | `!isFavorite` negates the flag (absent counts as false) and changes nothing else |
| App.ToggleFavorite | App.tsx:262-265 | the favorite flag flips on the target recipes only |
| App.ToggleTwice | App.tsx:262-265 | toggling twice leaves each recipe's favorite status as it was |
| App.InitialOrders | App.tsx:165-174 | the store starts with the single delivered order ORD-7782 |
| App.AppState.constructor | App.tsx:176-193 | the initial state: no user, Home tab, Dashboard view, empty cart and review list |
| App.AppState.HandleLogin | App.tsx:205-214 | logs the user in with a `u-` id and the fixed avatar, and closes the auth modal |
| App.AppState.HandleLogout | App.tsx:216-220 | clears the user and returns to Home and Dashboard |
| App.AppState.HandleTabChange | App.tsx:196-202 | switches to Orders or Profile only with a logged-in user, and otherwise opens the auth modal; Home and Categories always switch |
| App.AppState.HandleAdminUpdateProduct | App.tsx:232-234 | the database becomes the by-id replacement |
| App.AppState.HandleAdminAddProduct | App.tsx:235-237 | a new product is prepended |
| App.AppState.HandleAdminDeleteProduct | App.tsx:238-240 | the database becomes the by-id deletion |
| App.AppState.HandleAdminUpdateOrderStatus | App.tsx:241-252 | the orders become the status update |
| App.AppState.HandleAdminAddRecipe | App.tsx:253-255 | a new recipe is appended |
| App.AppState.HandleAdminUpdateRecipe | App.tsx:256-258 | the recipes become the by-id replacement |
| App.AppState.HandleAdminDeleteRecipe | App.tsx:259-261 | the recipes become the by-id deletion |
| App.AppState.HandleToggleFavorite | App.tsx:262-269 | flips the flag in the database, and in the selected recipe when it is the target |
| App.AppState.HandleAnalysisComplete | App.tsx:281-297 | the review list becomes the analysis items, the image is stored, the recipe is cleared, and the view becomes Review |
| App.AppState.HandleAddToCart | App.tsx:317-341 | without a user only the auth modal opens; otherwise the cart becomes the merge, the cart opens, and Review or RecipeDetail return to Dashboard; a valid cart stays valid |
| App.AppState.HandleSingleItemPurchase | App.tsx:342-363 | without a user only the auth modal opens; when editing a review item the review list takes the purchase and the view is Review; otherwise the item is merged into the cart, the cart opens, and the view goes from Review or RecipeDetail to Dashboard and otherwise stays |
| App.AppState.HandlePaymentSuccess | App.tsx:364-383 | prepends the new order, records the last order with its total, empties the cart, and shows Success |
| App.AppState.CartUpdateQuantity | App.tsx:433-435 | the cart becomes the stepped cart and stays valid |
| App.AppState.CartRemoveItem | App.tsx:436 | the cart becomes the filtered cart and stays valid |
| App.AppState.HandleAddRecipeToCart | App.tsx:461 | the recipe's items become the review list, all selected, and the view becomes Review |
| IngredientReview.ToggleSelection | components/IngredientReviewScreen.tsx:43-50 | flips `isSelected` on the items with that id only; length, order and other fields are unchanged |
| IngredientReview.ToggleTwice | components/IngredientReviewScreen.tsx:43-50 | toggling twice restores the list |
| IngredientReview.UpdateQuantity | components/IngredientReviewScreen.tsx:52-60 | sets max(1, q + delta) on the items with that id only |
| IngredientReview.UpdateKeepsQuantities | components/IngredientReviewScreen.tsx:52-60 | quantities that start at least 1 stay at least 1 |
| IngredientReview.ReplaceLineProduct | components/IngredientReviewScreen.tsx:73-78 | replaces only the product of the items with the active id |
| IngredientReview.DeleteItem | components/IngredientReviewScreen.tsx:84-86 | keeps exactly the items with another id, in order and with their multiplicities |
| IngredientReview.SelectedItems | components/IngredientReviewScreen.tsx:88-91 | keeps exactly the selected items, in order and with their multiplicities |
| IngredientReview.Bases | components/IngredientReviewScreen.tsx:88-91 | each item becomes its review-item part, in order |
| IngredientReview.Continue | components/IngredientReviewScreen.tsx:88-91 | passes on the selected lines, without the flag, position by position in the order `SelectedItems` keeps, so every selected line and nothing else |
| IngredientReview.ContinueKeepsOrder | components/IngredientReviewScreen.tsx:88-91 | the lines passed on are a subsequence of the whole list without flags: the original order is kept |
| IngredientReview.BasesKeepSubseq | components/IngredientReviewScreen.tsx:88-91 | dropping the flag keeps a subsequence a subsequence |
| IngredientReview.FilteredItems | components/IngredientReviewScreen.tsx:93-95 | keeps exactly the items whose lower-cased product name contains the lower-cased query, each as often as before, in order |
| IngredientReview.EmptySearchKeepsAll | components/IngredientReviewScreen.tsx:93-95 | an empty query keeps every item |
| IngredientReview.SelectedCount | components/IngredientReviewScreen.tsx:97 | counts the selected items |
| IngredientReview.TotalAmount | components/IngredientReviewScreen.tsx:98-100 | price × quantity over the selected lines; `IngredientReview.TotalAmountConcat` and `IngredientReview.TotalAmountSingle` state it is the sum of each selected line's cost |
| IngredientReview.TotalAmountConcat | components/IngredientReviewScreen.tsx:98-100 | the selected total splits over concatenation |
| IngredientReview.BasesConcat | components/IngredientReviewScreen.tsx:88-91 | projecting to review items distributes over concatenation |
| IngredientReview.TotalAmountSingle | components/IngredientReviewScreen.tsx:98-100 | one item contributes price × quantity if selected and nothing otherwise |
| IngredientReview.ReviewScreen.constructor | components/IngredientReviewScreen.tsx:36-41 | the initial search and modal state |
| IngredientReview.ReviewScreen.SetSearchQuery | components/IngredientReviewScreen.tsx:36 | stores the query |
| IngredientReview.ReviewScreen.HandleOpenAlternatives | components/IngredientReviewScreen.tsx:62-68 | opens the modal on the item with exactly five resolver products for its ingredient name |
| IngredientReview.ReviewScreen.HandleSelectAlternative | components/IngredientReviewScreen.tsx:70-82 | does nothing without an active item; otherwise replaces only that item's product and closes the modal |
| ShoppingBag.Subtotal | components/ShoppingBagScreen.tsx:28 | is 0 for an empty bag and non-negative for non-negative lines |
| ShoppingBag.LineTotalNonNegativeIf | components/ShoppingBagScreen.tsx:28 | non-negative lines give a non-negative subtotal |
| ShoppingBag.DeliveryFee | components/ShoppingBagScreen.tsx:29 | the fee is 0 exactly for an empty bag or a subtotal over 50, and otherwise 3.99 |
| ShoppingBag.Total | components/ShoppingBagScreen.tsx:30 | the total exceeds the subtotal by exactly the fee |
| ShoppingBag.FeeAtThreshold | components/ShoppingBagScreen.tsx:29-30 | a subtotal of exactly 50 still pays 3.99 |
| ShoppingBag.ValidItems | components/ShoppingBagScreen.tsx:32 | exactly the lines with positive quantity, in order, with their multiplicities |
| ShoppingBag.BagScreen.constructor | components/ShoppingBagScreen.tsx:24-25 | no method chosen and not processing |
| ShoppingBag.BagScreen.SelectPaymentMethod | components/ShoppingBagScreen.tsx:166 | stores the chosen method |
| ShoppingBag.BagScreen.HandleConfirmOrder | components/ShoppingBagScreen.tsx:34-42 | confirms exactly when a method is chosen, and only then starts processing; a confirmation leaves the confirm button disabled, and a call while the button is enabled always confirms |
| ShoppingBag.BagScreen.ClickConfirm | components/ShoppingBagScreen.tsx:244-246 | a click confirms exactly when the button is enabled (a method chosen and nothing under way), so an order under way is not confirmed twice; afterwards the button is disabled |
| Payment.FormatExpiry | components/PaymentScreen.tsx:99-106 | at most 4 digits are kept, with '/' after the first two when there are at least two, so the result is at most 5 long |
| Payment.SanitizeCvv | components/PaymentScreen.tsx:194 | the first four digits of the input (all of them when there are fewer), in order, and nothing else |
| Payment.GroupFour | components/PaymentScreen.tsx:95 | the `(\d{4})(?=\d)` replacement; the `GroupFour` lemmas below state what it does to a digit string |
| Payment.FormatCardNumber | components/PaymentScreen.tsx:92-97 | the stored card number; `Payment.CardFormatShape` and `Payment.CardFormatValid` state its shape and validity |
| Payment.CardNumberOk | components/PaymentScreen.tsx:52-54 | the card rule: sixteen digits once whitespace is removed; `Payment.CardFormatValid` relates it to the formatter |
| Payment.ExpiryOk | components/PaymentScreen.tsx:56-58 | the expiry rule `MM/YY` with month 01-12; `Payment.ExpiryFormatValid` relates it to the formatter |
| Payment.CvvOk | components/PaymentScreen.tsx:60-62 | the CVV rule: three or four digits; `Payment.CvvSanitizeValid` relates it to the sanitiser |
| Payment.GroupFourShort | components/PaymentScreen.tsx:95 | fewer than five digits get no separator |
| Payment.GroupFourDigits | components/PaymentScreen.tsx:95 | a space follows each full group of four that another digit follows |
| Payment.GroupFourRoundTrip | components/PaymentScreen.tsx:95 | removing the spaces gives back the digit string |
| Payment.GroupFourShape | components/PaymentScreen.tsx:95 | grouping is empty only for no digits, never ends in a space, and adds one space per full group followed by a digit |
| Payment.CardFormatShape | components/PaymentScreen.tsx:92-97 | the formatted number is at most 19 long, has no trailing space, and strips back to the first 16 digits of the input |
| Payment.CardFormatValid | components/PaymentScreen.tsx:52-54 | a formatted number passes the card check exactly when the input had at least 16 digits |
| Payment.ExpiryFormatValid | components/PaymentScreen.tsx:56-58 | a formatted expiry passes exactly when its four digits are a month 01-12 and a year |
| Payment.CvvSanitizeValid | components/PaymentScreen.tsx:60-62 | a sanitised CVV passes exactly when the input had at least three digits |
| Payment.SetText | components/PaymentScreen.tsx:81-83 | sets one text field and leaves every other field unchanged |
| Payment.SetFlag | components/PaymentScreen.tsx:231 | sets one flag and leaves every other field unchanged |
| Payment.Message | components/PaymentScreen.tsx:49-64 | every field has a non-empty error message |
| Payment.SpaceAfterDigitsRemoved | components/PaymentScreen.tsx:95 | the space inserted after a group of digits is the only character the whitespace removal drops there |
| Payment.RecordStep | components/PaymentScreen.tsx:49-64 | one rule records its own field exactly when it fails, with its message, and changes nothing recorded for any other field |
| Payment.ValidationErrorsRecordFailures | components/PaymentScreen.tsx:46-68 | the record `validate` builds holds exactly the failing fields (trimmed name, 16-digit card, MM/YY with 01-12, 3 or 4 digit CVV, trimmed address), each with its message, and is empty exactly when the form is valid |
| Payment.ValidationErrors | components/PaymentScreen.tsx:46-68 | the record `validate` builds; `Payment.ValidationErrorsRecordFailures` states what it holds |
| Payment.ValidIffNoErrors | components/PaymentScreen.tsx:66-67 | the form is valid exactly when the recorded errors are empty |
| Payment.PaymentForm.constructor | components/PaymentScreen.tsx:22-44 | the initial form, no errors, not processing |
| Payment.PaymentForm.PrefillAddress | components/PaymentScreen.tsx:33-41 | a given address fills only the address field |
| Payment.PaymentForm.ApplyRule | components/PaymentScreen.tsx:49-64 | one `if` of `validate` adds the field's message exactly when the field fails its rule |
| Payment.PaymentForm.Validate | components/PaymentScreen.tsx:46-68 | stores the record of failing fields (`ValidationErrorsRecordFailures` says what it holds) and returns whether it is empty |
| Payment.PaymentForm.HandlePay | components/PaymentScreen.tsx:70-79 | validates, and starts processing and succeeds exactly when the record is empty, that is when the form is valid; a success leaves the pay button disabled |
| Payment.PaymentForm.HandleChange | components/PaymentScreen.tsx:81-90 | sets the field and removes that field's error if one is recorded; nothing else changes |
| Payment.PaymentForm.HandleFlagChange | components/PaymentScreen.tsx:231 | sets the flag only |
| Payment.PaymentForm.HandleCardNumberChange | components/PaymentScreen.tsx:92-97 | stores the formatted number and clears its error |
| Payment.PaymentForm.HandleExpiryChange | components/PaymentScreen.tsx:99-106 | stores the formatted expiry and clears its error |
| Payment.PaymentForm.HandleCvvChange | components/PaymentScreen.tsx:194 | stores the sanitised CVV and clears its error |
| Payment.PaymentForm.ClickPay | components/PaymentScreen.tsx:254-256 | while processing the disabled button ignores the click and nothing changes; otherwise the click validates and pays exactly when the form is valid |
| ProductDetail.Displayed | components/ProductDetailScreen.tsx:35-40 | missing fields fall back to 'Pantry', 150 calories, default nutrition, [] allergens and [] dietary types |
| ProductDetail.DisplayedKeepsPresentFields | components/ProductDetailScreen.tsx:35-40 | present fields are shown as they are |
| ProductDetail.BaseOptions | components/ProductDetailScreen.tsx:47-56 | meat names get 'premium' unless Organic, then 'precut' unless Halal, and nothing else; other seafood names get 'wild' unless Fresh; any other name gets 'local' |
| ProductDetail.DietaryOption | components/ProductDetailScreen.tsx:59-70 | each dietary option has the lower-cased type as id and the type as caption |
| ProductDetail.OptionsFor | components/ProductDetailScreen.tsx:43-73 | the base options come first, then exactly one option per dietary type, in order |
| ProductDetail.GetOptionsForProduct | components/ProductDetailScreen.tsx:43-73 | the pushes build exactly `OptionsFor`: the base options, then one option per dietary type, in order |
| ProductDetail.PushBaseOptions | components/ProductDetailScreen.tsx:47-56 | the `if`/`else if` chain pushes exactly the options derived from the name |
| ProductDetail.PushDietaryOptions | components/ProductDetailScreen.tsx:59-70 | the `forEach` appends one option per dietary type after the base options |
| ProductDetail.OptionIds | components/ProductDetailScreen.tsx:77 | gives the id of each option, in order |
| ProductDetail.InitialQuantity | components/ProductDetailScreen.tsx:29 | starts at the item's quantity, or 1 when the item or its quantity is absent or 0 |
| ProductDetail.SelectedOptions | components/ProductDetailScreen.tsx:77 | the item's options if present, or else every option id |
| ProductDetail.ProductPage.constructor | components/ProductDetailScreen.tsx:29 | the page starts at the initial quantity |
| ProductDetail.ProductPage.UpdateQuantity | components/ProductDetailScreen.tsx:91-93 | the new quantity is q + delta, clamped below at 1 |
| ProductDetail.ProductPage.HandlePurchase | components/ProductDetailScreen.tsx:77-89 | the edited item's id or a fresh one, the product unchanged and named after itself, the page quantity, and the item's own options or else the id of every option offered, in order |
| Profile.SetDefault | components/ProfileScreen.tsx:30-33 | `isDefault` holds exactly for entries with that id and each entry is otherwise unchanged; `SetDefaultAddress` applies it to addresses and `SetDefaultCard` to cards (lines 39-42) |
| Profile.OneDefault | components/ProfileScreen.tsx:31 | with unique ids and a present id, exactly one entry is the default, for addresses and for cards (line 40) alike |
| Profile.AbsentIdClearsDefault | components/ProfileScreen.tsx:31 | an id that is not present leaves no default address |
| Profile.DeleteAddress | components/ProfileScreen.tsx:34-38 | without confirmation nothing is deleted; with it, exactly the addresses with another id remain, each as often as before, in order |
| Profile.DeleteOneAddress | components/ProfileScreen.tsx:34-38 | with unique ids, a confirmed delete of a present id removes exactly one address |
| Profile.CountAllButOne | components/ProfileScreen.tsx:36 | with unique ids, all but one address carry another id |
| Profile.CountNone | components/ProfileScreen.tsx:36 | an absent id keeps every address |
| Profile.ProfileScreen.constructor | components/ProfileScreen.tsx:25-27 | the menu view, not editing, with the user's name |
| Profile.ProfileScreen.SetView | components/ProfileScreen.tsx:219 | stores the view |
| Profile.ProfileScreen.StartEditName | components/ProfileScreen.tsx:203 | enters edit mode |
| Profile.ProfileScreen.SetNewName | components/ProfileScreen.tsx:196 | stores the typed name |
| Profile.ProfileScreen.HandleNameSave | components/ProfileScreen.tsx:51-56 | updates the user with the untrimmed name, and leaves edit mode, exactly when the trimmed name is non-empty |
| Profile.ProfileScreen.CancelEditName | components/ProfileScreen.tsx:198 | leaves edit mode and restores the user's name |
| AdminDashboard.TotalSalesConcat | components/AdminDashboard.tsx:149 | revenue splits over concatenation |
| AdminDashboard.TotalSales | components/AdminDashboard.tsx:149 | the revenue sum; `AdminDashboard.TotalSalesConcat` and `AdminDashboard.CheckoutRaisesSales` state it |
| AdminDashboard.CheckoutRaisesSales | components/AdminDashboard.tsx:149 | recording a paid order raises revenue by exactly that order's total |
| AdminDashboard.PendingOrders | components/AdminDashboard.tsx:150 | counts the orders neither delivered nor cancelled; with the closed ones they make up all orders |
| AdminDashboard.LowStockItems | components/AdminDashboard.tsx:151 | counts the products with stock below 5; when no product has a stock value, every product counts |
| AdminDashboard.ProductListing | components/AdminDashboard.tsx:414-419 | exactly the products whose name contains the search, case-insensitively, and whose category is the selected one or 'All', each as often as before, in order |
| AdminDashboard.NoProductsIff | components/AdminDashboard.tsx:463-467 | "No products found." shows exactly when no product passes the filter |
| AdminDashboard.UnfilteredListing | components/AdminDashboard.tsx:414-419 | an empty search with 'All' lists every product |
| AdminDashboard.RecipeListing | components/AdminDashboard.tsx:490 | exactly the recipes whose title contains the search, each as often as before, in order |
| AdminDashboard.PartnerButtons | components/AdminDashboard.tsx:600-608 | the partner buttons exist exactly for an order that is ready for pickup with no partner, and each sends 'Out for delivery' with Uber or Grab |
| AdminDashboard.AssignPartner | components/AdminDashboard.tsx:600-608 | pressing a button sets the status and partner, after which the buttons are gone |
| AdminDashboard.StatusSelectKeepsPartner | components/AdminDashboard.tsx:587-598 | the status select keeps an assigned partner |
| AdminDashboard.Overlay | components/AdminDashboard.tsx:197 | every property present in the form wins over the product's and every other one is the product's (the overlaid product's form is the product's form overlaid with the edit), and an empty form keeps the product |
| AdminDashboard.EditRoundTrip | components/AdminDashboard.tsx:172-176 | saving an unchanged edit gives back the product |
| AdminDashboard.EditKeepsUntouched | components/AdminDashboard.tsx:197 | saving an editor opened on a product and then edited is the product overlaid with the edit alone: all fifteen properties come from the edit where it sets them and from the product otherwise, the id included |
| AdminDashboard.FormOfInjective | components/AdminDashboard.tsx:197 | a product is determined by its form, so the form equation fixes every property |
| AdminDashboard.ToProduct | components/AdminDashboard.tsx:199-204 | a complete partial record becomes a product whose form is that record |
| AdminDashboard.NewProductShape | components/AdminDashboard.tsx:199-204 | a new product's id is the form's or `prod-` plus the token, and its match type and weight are the form's or 'Exact match' and '1kg' |
| AdminDashboard.NewRecipe | components/AdminDashboard.tsx:233-242 | a new recipe takes each form property, and otherwise the defaults `recipe-` plus the token, 'New Recipe', '', '', '15 min' and 0 |
| AdminDashboard.NewRecipeFromForm | components/AdminDashboard.tsx:216-242 | a recipe saved from the new-recipe form keeps its '30 min' and 5 |
| AdminDashboard.RecipeEditRoundTrip | components/AdminDashboard.tsx:210-214 | saving an unchanged recipe edit gives back the recipe |
| AdminDashboard.FreshProductFormBlocked | components/AdminDashboard.tsx:178-194 | saving straight after "add product" is blocked by the zero price and empty name |
| AdminDashboard.EditedProductKeepsId | components/AdminDashboard.tsx:193-197 | an edit with a non-empty name and a non-zero price saves the product, with the new name and price and the same id |
| AdminDashboard.AdminScreen.constructor | components/AdminDashboard.tsx:133-146 | the initial view, search, 'All' category, and closed, empty editors |
| AdminDashboard.AdminScreen.SetActiveView | components/AdminDashboard.tsx:133 | stores the view |
| AdminDashboard.AdminScreen.SetSearchTerm | components/AdminDashboard.tsx:303 | stores the search term |
| AdminDashboard.AdminScreen.SelectProductCategory | components/AdminDashboard.tsx:400 | stores the category |
| AdminDashboard.AdminScreen.HandleEditProduct | components/AdminDashboard.tsx:172-176 | opens the editor on a copy of the product |
| AdminDashboard.AdminScreen.HandleAddNewProduct | components/AdminDashboard.tsx:178-191 | opens the editor on the new-product defaults |
| AdminDashboard.AdminScreen.SetProductName | components/AdminDashboard.tsx:674 | sets the name only |
| AdminDashboard.AdminScreen.SetProductPrice | components/AdminDashboard.tsx:688 | sets the price only |
| AdminDashboard.AdminScreen.SetProductStock | components/AdminDashboard.tsx:698 | sets the stock only |
| AdminDashboard.AdminScreen.SetProductCategory | components/AdminDashboard.tsx:708 | sets the category only |
| AdminDashboard.AdminScreen.HandleImageUpload | components/AdminDashboard.tsx:154-169 | the image goes to the open recipe editor, else to the open product editor, else nowhere |
| AdminDashboard.AdminScreen.HandleSaveProduct | components/AdminDashboard.tsx:193-207 | blocked without a name or price; otherwise reports the overlaid edit or the new record, and closes the editor |
| AdminDashboard.AdminScreen.HandleEditRecipe | components/AdminDashboard.tsx:210-214 | opens the recipe editor on a copy |
| AdminDashboard.AdminScreen.HandleAddNewRecipe | components/AdminDashboard.tsx:216-226 | opens the recipe editor on the new-recipe defaults |
| AdminDashboard.AdminScreen.SetRecipeImageUrl | components/AdminDashboard.tsx:761 | sets the image only |
| AdminDashboard.AdminScreen.SetRecipeTitle | components/AdminDashboard.tsx:770 | sets the title only |
| AdminDashboard.AdminScreen.SetRecipeDescription | components/AdminDashboard.tsx:779 | sets the description only |
| AdminDashboard.AdminScreen.SetRecipeCookTime | components/AdminDashboard.tsx:789 | sets the cook time only |
| AdminDashboard.AdminScreen.SetRecipeIngredientCount | components/AdminDashboard.tsx:798 | sets the ingredient count only |
| AdminDashboard.AdminScreen.HandleSaveRecipe | components/AdminDashboard.tsx:228-245 | blocked without a title or either callback; otherwise reports the overlaid edit or the new recipe, and closes the editor |
| RecipeDetail.MatchedProducts | components/RecipeDetailScreen.tsx:21-23 | one database-first product per ingredient name; none when the recipe has no ingredient list |
| RecipeDetail.LineName | components/RecipeDetailScreen.tsx:30 | the ingredient name, or the product name when that entry is missing or empty |
| RecipeDetail.AddAllItems | components/RecipeDetailScreen.tsx:27-34 | one line per matched product, in order, with quantity 1, empty options and a `recipe-item-i-now` id |
| RecipeDetail.HandleAddAll | components/RecipeDetailScreen.tsx:27-35 | one line per ingredient name of the recipe |
| RecipeDetail.UnitLinesCostTotalPrice | components/RecipeDetailScreen.tsx:25 | lines of quantity 1 cost exactly the sum of their products' prices |
| RecipeDetail.TotalPrice | components/RecipeDetailScreen.tsx:25 | the sum of the matched prices; `RecipeDetail.UnitLinesCostTotalPrice` and `RecipeDetail.AddAllCostsTotalPrice` relate it to the cart lines |
| RecipeDetail.AddAllCostsTotalPrice | components/RecipeDetailScreen.tsx:25-34 | the added lines cost exactly the recipe's shown total price |
| RecipeDetail.AddAllNames | components/RecipeDetailScreen.tsx:30 | each line is named after its recipe ingredient unless that name is empty |
| RecipeDetail.RecipeItemIdInjective | components/RecipeDetailScreen.tsx:29 | distinct indices give distinct ids at one instant |
| RecipeDetail.AddAllIdsDistinct | components/RecipeDetailScreen.tsx:27-34 | the added lines have pairwise distinct ids |
| CategoryDetail.CategoryProducts | components/CategoryDetailScreen.tsx:20-22 | exactly the products whose category is the category's label, each as often as before, in order |
| CategoryDetail.EmptyStateIff | components/CategoryDetailScreen.tsx:54 | the empty-state message shows exactly when no product is in the category |
| CategoryDetail.QuickAddItem | components/CategoryDetailScreen.tsx:24-33 | the random token as id, one of the product, unchanged, named after it without a quantity, and an empty option list |
| CategoryDetail.QuickAddCountsOne | components/CategoryDetailScreen.tsx:24-34 | a quick add raises that product's cart total by one and no other |
| CategoryDetail.QuickAddKeepsCartValid | components/CategoryDetailScreen.tsx:24-34 | a quick add keeps product ids distinct and quantities positive |

## Left out

- components/UploadScreen.tsx, the Gemini image analysis, FileReader reads and the AI response parsing are not part of this model. They are I/O and a foreign API. `HandleAnalysisComplete` takes the ingredient list as a parameter.
- firebase.ts and server/ are not part of this model. They are SDK setup and an HTTP endpoint.
- components/AuthScreen.tsx and components/OrderStatusScreen.tsx are not part of this model:
  - the mock credential check sits in a timer, and its `onLogin(name, role)` does not match `handleLogin(name, email, role)`;
  - the order status screen is timer-driven animation.
- The rich-text editor inside the admin dashboard, all JSX rendering, CSS, icons beyond a tag, and the presentational components are left out.
- The initial products and recipes databases (App.tsx:29-163) are constructor parameters, because they are static data.
- `Math.random()` is not modelled. Every draw is a `Draw` parameter. The generated id tokens, the random calories, nutrition strings and fallback price are also taken verbatim from the `Draws` record instead of being computed. So is the fallback's `pricePerUnit` label, which the source derives from the drawn price as `$(price / 5)/100g` with `toFixed(2)` (constants.ts:451); the model does not tie it to `price`.
- `Date.now()`, `toLocaleDateString`, and the `confirm()` dialog of the address delete are parameters. `RecipeDetail.AddAllItems` takes one `now` for all its lines, where the source reads `Date.now()` once per line; the ids stay distinct through their index either way.
- Floating point is left out. Money is an exact `real` (3.99 is exact), and `toFixed` formatting is not modelled.
- The NaN results of `parseFloat`/`parseInt` in the admin form setters are left out: the setters take a number.
- `setTimeout` delays in `handleConfirmOrder` and `handlePay` are one step: processing starts and the success callback's firing is the returned flag. The state after the step is the one while the delay runs: the timer's reset of `isProcessing` to false before the callback is not modelled.
- `toLowerCase` is ASCII-only: non-ASCII letters are left unchanged.
- Text.Trim's white-space set is the ECMAScript one, listed code point by code point.
- The catalogs' image URLs are built by `CatalogData.Unsplash` from the photo id in the source.
- `Catalog.BrandOf`: a catalog entry without a brand gives the empty string.
- React's batching of state updates is not modelled: each handler's updates happen in one step. A handler's callbacks into a parent are modelled as values it returns, not as calls.
- `handleProductSelect`, `handleRecipeSelect` and `handleCategoryClick` (App.tsx:298-316) are left out. They only store a selection and switch the view.
- The `userOrders` filter (App.tsx:405), the location picker, the cart-flow navigation buttons and the profile avatar change (FileReader) are left out. They are navigation or I/O.
- The `isFavorite` flag on the product detail page is left out. It is a local display flag.
- AdminDashboard.AdminScreen.HandleSaveProduct: a new product is reported as the partial record the source casts with `as Product`, not as a whole product. `ToProduct` and `NewProductShape` state when that record is a whole product.
- Payment.PaymentForm.HandleFlagChange: the source routes the two toggles through `handleChange`, whose error removal can never fire for them, because errors are only ever recorded for the five text fields. The model keeps the error map typed by text field and leaves errors unchanged on a toggle.
- App.AppState.HandleAddToCart: a line carried over from the review list keeps its `isSelected` property in the source. The model's cart lines are `ReviewItem`s without that property.
- RecipeDetail.HandleAddAll: `recipe.ingredients[index]` would throw for a recipe without an ingredient list if it had matched products. That cannot happen, because the matched list is then empty, so the model reads the list as `[]`.

## Notes on the source

- The payment form's `validate` uses `/^\d{16}$/` on the card number after removing white space. The formatter keeps at most 16 digits, so a formatted number passes exactly when the input held 16 or more digits (`Payment.CardFormatValid`).
- The fallback's match-type thresholds and the vegetable 'Best Price' draw are separate draws in the source. They are separate fields of `Draws` here (`first`, `bestPrice`).

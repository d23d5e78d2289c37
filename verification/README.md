# Flange storefront: pricing, carts and stockist search

A Dafny model of the logic in the storefront for a two-stage drain flange
product line:

- the order configurator (`src/components/ProductSelector.tsx`): an
  in-progress selection, a live quote and a local cart;
- the shared cart store (`src/contexts/CartContext.tsx`): append, remove by
  position, clear, and the published unit count and dollar value;
- the stockist search (`src/components/StockistMap.tsx`, `handleSearch`):
  it normalises the query and picks the stockist the map flies to.

Both the configurator and the store carry their own copy of the same price
table. Prices are whole dollars per unit and depend on the finish and on
the line's own quantity:

| finish | below 18 units | 18 units or more |
|---|---|---|
| Polished or Matte Stainless Steel | 110 | 80 |
| any other finish | 130 | 100 |

A line costs its unit price times its quantity. A cart's value is the sum
of its line prices.

Modules, one per source component:

- `PriceTable` (`price_table.dfy`): the table above as data, with the
  threshold of 18. Both pricing copies are proved against it.
- `Folds` (`folds.dfy`): the running-total fold behind every `reduce` in
  the cart code, and its algebra: append, concatenation, removal and
  in-place update.
- `ProductSelector` (`product_selector.dfy`): the selection, field edits,
  the plus/minus buttons, the completeness guard, adding to the local cart,
  the quote, and the local cart totals.
- `CartContext` (`cart_context.dfy`): cart lines, the store's pricing copy,
  add, remove, clear and the totals.
- `CopiesAgree` (`copies_agree.dfy`): the two pricing copies agree, and so
  do the totals of the two carts over the same lines.
- `StockistMap` (`stockist_map.dfy`): lower-casing, JavaScript `trim`,
  substring test, first match, and the resulting camera move.

Box pricing in the code works as follows:

- the threshold is 18, inclusive, and is judged per line on that line's own
  quantity. There is no pool across lines: `CartContext.NoCartWideThreshold`
  shows that 17 units plus 1 unit of the same finish, as two lines, cost
  17 × 130 + 1 × 130 = 2340;
- there is no box quantity and there are no accessory prices;
- the quantity buttons floor at 1;
- adding requires non-empty type, size, finish and postcode, with no check
  on quantity, and it resets only the quantity, to 1.

The configurator's local cart and the shared store are separate in the
code. `CopiesAgree` compares them only as two pricings of the same lines.

## Model

| member | source | states |
|---|---|---|
| PriceTable.TableShape | src/components/ProductSelector.tsx:58-67 | in both finish tiers the box price is below the single-unit price, and every price lies between 80 and 130 |
| ProductSelector.UpdateSelection | src/components/ProductSelector.tsx:43-45 | an edit sets exactly the field it names; every other field keeps its value |
| ProductSelector.AdjustQuantity | src/components/ProductSelector.tsx:47-52 | the result quantity is never below 1; plus adds one from any non-negative quantity and gives 1 from a negative one, minus subtracts one down to the floor of 1; no other field changes |
| ProductSelector.StainlessFinishes | src/components/ProductSelector.tsx:23-56 | among the six offered finishes, exactly Polished and Matte are judged stainless |
| ProductSelector.UnitPrice | src/components/ProductSelector.tsx:58-67 | the unit price is the table cell for the finish's tier and for the band of the line's own quantity |
| ProductSelector.TotalPrice | src/components/ProductSelector.tsx:69-71 | the line price is the quoted unit price times the quantity, for every quantity; for a non-negative quantity it lies between 80 and 130 per unit |
| ProductSelector.FinishPrices | src/components/ProductSelector.tsx:54-67 | each offered finish is priced 110/80 (Polished, Matte) or 130/100 (the rest), below and at or above 18 units |
| ProductSelector.ThresholdInclusive | src/components/ProductSelector.tsx:58-67 | 18 units get the box price and 17 do not; the price is constant on each side of the threshold |
| ProductSelector.UnitPriceMonotone | src/components/ProductSelector.tsx:58-67 | the unit price never rises as the line's quantity grows |
| ProductSelector.BoxPriceCliff | src/components/ProductSelector.tsx:58-71 | at the threshold a line of 18 costs less in total than a line of 17 |
| ProductSelector.QuoteMatchesNotice | src/components/ProductSelector.tsx:146-150 | the "Box pricing applies" notice shows exactly when the quoted unit price is below the single-unit price |
| ProductSelector.AdvertisedBoxPriceIsCharged | src/components/ProductSelector.tsx:220-225 | the box price the hint advertises for a finish is what every quantity of 18 or more is charged |
| ProductSelector.AddToCart | src/components/ProductSelector.tsx:73-80 | an incomplete selection changes nothing; a complete one is appended once at the end of the cart, earlier lines are kept, the quantity resets to 1 and the other fields stay |
| ProductSelector.AddToCartTotals | src/components/ProductSelector.tsx:81-82 | a successful add raises the unit count by the selected quantity and the value by the quoted line price; a refused add changes neither |
| ProductSelector.QuantityStaysPositive | src/components/ProductSelector.tsx:33-78 | under any sequence of button presses, text edits and adds, a selection quantity of at least 1 stays at least 1, and so does every cart line's quantity |
| ProductSelector.InitialQuantityStaysPositive | src/components/ProductSelector.tsx:33-52 | from the initial quantity of 1, no sequence of form actions brings the quantity below 1 |
| CartContext.UnitPrice | src/contexts/CartContext.tsx:35-44 | the store's unit price is the table cell for the finish's tier and the line's own quantity band |
| CartContext.TotalPrice | src/contexts/CartContext.tsx:46-48 | the line price is the unit price times the quantity, for every quantity the store accepts; for a non-negative quantity it lies between 80 and 130 per unit |
| CartContext.AddToCart | src/contexts/CartContext.tsx:54-55 | the result is one longer, begins with the old cart unchanged and ends with the added item |
| CartContext.RemoveFromCart | src/contexts/CartContext.tsx:60-62 | an in-range position removes exactly that line and keeps the order of the rest; any other position leaves the cart unchanged |
| CartContext.ClearCart | src/contexts/CartContext.tsx:64-66 | clearing leaves no lines |
| CartContext.Totals | src/contexts/CartContext.tsx:68-69 | the running-total loops compute the sum of line quantities and the sum of line prices |
| CartContext.AddToCartTotals | src/contexts/CartContext.tsx:68-69 | after an add, the unit count grows by the item's quantity and the value by the item's line price |
| CartContext.RemoveFromCartTotals | src/contexts/CartContext.tsx:60-69 | removing an in-range line lowers the totals by exactly that line's quantity and price; an out-of-range removal leaves both totals unchanged |
| CartContext.ClearCartTotals | src/contexts/CartContext.tsx:64-69 | the cleared cart has unit count 0 and value 0 |
| CartContext.LinePricingIsLocal | src/contexts/CartContext.tsx:35-69 | changing one line changes the cart value by that line's change in price alone, because every line is priced on its own quantity |
| CartContext.TotalsNonNegative | src/contexts/CartContext.tsx:68-69 | with non-negative quantities both totals are non-negative |
| CartContext.NoCartWideThreshold | src/contexts/CartContext.tsx:35-44 | 17 units plus 1 unit of a non-premium finish, as two lines, are 18 units worth 17 × 130 + 1 × 130 = 2340, each line priced on its own quantity |
| Folds.Reduce | src/contexts/CartContext.tsx:68-69 | the reduce loop's running total equals the fold of the term over the whole sequence |
| CopiesAgree.PricesAgree | src/contexts/CartContext.tsx:31-48 | the store's stainless test, unit price and line price equal the configurator's copies for every finish label and quantity |
| CopiesAgree.CartTotalsAgree | src/components/ProductSelector.tsx:81-82 | the configurator's cart totals equal the store's totals over the same lines with the postcode dropped |
| ProductSelector.IsStainlessSteel | src/components/ProductSelector.tsx:54-56 | definition: the finish label is Polished or Matte Stainless Steel; used by ProductSelector.StainlessFinishes and compared with the store's copy in CopiesAgree.PricesAgree |
| ProductSelector.ShowsBoxNotice | src/components/ProductSelector.tsx:146-150 | definition: the "Box pricing applies" notice shows when the quantity is 18 or more; used by ProductSelector.QuoteMatchesNotice |
| ProductSelector.AdvertisedBoxPrice | src/components/ProductSelector.tsx:220-225 | definition: the box price named in the hint, 80 for a stainless finish and 100 otherwise; used by ProductSelector.AdvertisedBoxPriceIsCharged |
| ProductSelector.MenuSelectionComplete | src/components/ProductSelector.tsx:15-30 | with a type and size from the offered menus and any offered finish, the selection is complete exactly when the postcode is non-empty |
| ProductSelector.IsSelectionComplete | src/components/ProductSelector.tsx:74-80 | definition: type, size, finish and postcode are all non-empty; it is the guard in the contract of ProductSelector.AddToCart |
| ProductSelector.CartTotal | src/components/ProductSelector.tsx:81 | definition: the fold of line quantities over the local cart; used by ProductSelector.AddToCartTotals and CopiesAgree.CartTotalsAgree |
| ProductSelector.CartValue | src/components/ProductSelector.tsx:82 | definition: the fold of line prices over the local cart; used by ProductSelector.AddToCartTotals and CopiesAgree.CartTotalsAgree |
| CartContext.IsStainlessSteel | src/contexts/CartContext.tsx:31-33 | definition: the finish label is Polished or Matte Stainless Steel; it selects the tier in the contract of CartContext.UnitPrice and is compared with the configurator's copy in CopiesAgree.PricesAgree |
| CartContext.CartTotal | src/contexts/CartContext.tsx:68 | definition: the fold of line quantities over the cart; used by CartContext.Totals and the add, remove, clear and locality lemmas |
| CartContext.CartValue | src/contexts/CartContext.tsx:69 | definition: the fold of line prices over the cart; used by CartContext.Totals and the add, remove, clear and locality lemmas |
| StockistMap.Normalize | src/components/StockistMap.tsx:66 | definition: the query lower-cased, then trimmed; its meaning follows from the contracts of StockistMap.ToLower and StockistMap.Trim and it is used by StockistMap.HandleSearch |
| StockistMap.Matches | src/components/StockistMap.tsx:70-74 | definition: the query is contained in the lower-cased postcode, suburb or location; StockistMap.FindFirst and StockistMap.HandleSearch state their results in terms of it |
| StockistMap.ToLower | src/components/StockistMap.tsx:66 | lower-casing keeps the length and every non-capital, maps each ASCII capital to its lower-case letter, and leaves no capital |
| StockistMap.Trim | src/components/StockistMap.tsx:66 | trimming removes whitespace from both ends only: the result is the slice after the leading whitespace, only whitespace follows it, and it neither starts nor ends with whitespace; it is empty exactly when the input is all whitespace |
| StockistMap.Contains | src/components/StockistMap.tsx:71-73 | the substring test holds exactly when the needle occurs at some position of the haystack |
| StockistMap.FindFirst | src/components/StockistMap.tsx:70-74 | the position found holds a match and none before it does; nothing is found exactly when no stockist matches |
| StockistMap.HandleSearch | src/components/StockistMap.tsx:65-83 | a blank query or an unloaded map moves nothing; a move goes to the first stockist whose lower-cased postcode, suburb or location contains the normalised query, at zoom 12 over 2000 ms; no move with a loaded map and a non-blank query means no stockist matches |
| StockistMap.SearchButtonMatchesGuard | src/components/StockistMap.tsx:154 | the search button is disabled exactly when the search would ignore the query |
| StockistMap.SearchIgnoresCase | src/components/StockistMap.tsx:66 | lower-casing the query first gives the same search result |
| StockistMap.SearchIgnoresPadding | src/components/StockistMap.tsx:66 | whitespace before or after the query gives the same search result |

## Left out

- The `recentlyAdded` flag and its one-second reset timer in the store (`src/contexts/CartContext.tsx:56-57`). It is a cosmetic animation with no effect on cart contents.
- React plumbing: context creation, `useCart` throwing outside a provider, state hooks and all JSX rendering. The state updates are modelled as pure functions from old state to new state.
- Map setup, markers, popups and the actual `flyTo` call. These are calls into the map library. The search returns the camera move it would request, and whether the map exists is a boolean parameter.
- StockistMap.ToLower: folds only ASCII capitals. JavaScript's `toLowerCase` also lower-cases non-ASCII letters, and the model does not follow Unicode case mapping.
- Quantities are whole numbers. A JavaScript number can be fractional or NaN, which the form never produces.
- `setSelection`/`setCart` batching: the add is modelled as one atomic step from the current selection and cart. This is how the configurator behaves for one click.
- The video frame extraction, logo background removal, carousel, stockist application form, static pages and routing. None of them is part of the pricing, cart or search logic.

# Point of sale and product catalog — a Dafny model

This project models the two screens at the heart of the store application:

- **The point-of-sale screen** (`app/pos/page.tsx`). The cashier finds a product by typing in the
  search box (arrow keys and Enter move through the suggestions) or by scanning a barcode, which
  the screen sees as a fast burst of key presses ending in Enter. A product with one batch goes
  straight to the quantity dialog; a product with several batches first opens a batch picker.
  The chosen quantity is added to the cart as one line per product and batch. Cart lines can be
  stepped up and down by the unit's step, edited, or removed. Checkout empties the cart unless a
  credit sale has no customer.
- **The product catalog screen** (`app/dashboard/products/page.tsx`). It lists products with their
  batches and filters them by name, category or barcode. Rows expand and collapse. Products and
  batches are added, edited and deleted. It computes each product's stock, average price and
  latest-batch price, and the summary counts: batches, products out of stock, products low on
  stock, and products per category.

Modules, one file each:

- `Inventory` (`inventory.dfy`): products, batches, units, customers.
- `Text` (`text.dfy`): ASCII lower-casing and substring search.
- `Decimal` (`decimal.dfy`): `Math.round(x*100)/100` and `toFixed(1)` on reals.
- `Cart` (`cart.dfy`): cart lines and the pure cart operations, totals and tax.
- `Scanner` (`scanner.dfy`): the keyboard-wedge barcode buffer as a timed state machine.
- `PointOfSale` (`pos.dfy`): the POS screen's state as a value (`PosView`), one function per handler, and the `PosPage` class whose methods update its fields.
- `Catalog` (`catalog.dfy`): stock and price aggregates, barcode generation, filtering, the summary counts and the pure product and batch edits.
- `ProductsScreen` (`products_page.dfy`): the catalog screen's `ProductsPage` class and its handlers.

Each React component becomes a class with one field per piece of `useState` state it models. Each handler is a
method that states its entire new state as `View() == F(old(View()), …)`, where `F` is a function
on the state value. The properties of `F` are proved as its own `ensures` clauses and as lemmas.
`Valid()` is the invariant every handler keeps:

- on the POS screen: cart keys are unique, cart quantities are positive, the highlighted
  suggestion is in range, and an open dialog has what it needs selected;
- on the catalog screen: no product is expanded twice.

Money and quantities are `real`s. A text field holding a number is an `Option<real>`, where
`None` is what `parseFloat` reports as NaN. Clock readings, and the ids and barcodes built from
them, are parameters.

Where the code differs from what one might expect, the model follows the code:

- Decrementing a cart line never goes below one step of its unit: one piece, or 0.1 of any other
  unit (`Cart.Decrement`).
- Enter in the quantity dialog adds the typed quantity even when it exceeds the batch's stock.
  Only the Add button is disabled in that case (`PointOfSale.EnterIgnoresStock`).
- Checkout records the subtotal (`calculateTotal`), not the total with 10% tax that the screen
  displays (`PointOfSale.PosPage.HandleCheckout`).
- Dismissing the catalog's product dialog by clicking outside or Escape closes it without leaving editing mode. "Add Product" then reopens it still in editing mode, and submitting edits the product chosen earlier instead of adding one (`ProductsScreen.DismissedEditThenAdd`).
- The batch highlight is reset to 0 only when the batch dialog opens. A scan that selects another
  product while the dialog stays open keeps the old index. Enter and the Select button then do
  nothing if that index is past the new product's batches.

## Model

| member | source | states |
|---|---|---|
| `Text.Lower` | app/pos/page.tsx:211 | lower-casing keeps the length, maps each character on its own and leaves no upper-case ASCII letter |
| `Text.ContainsIffOccurs` | app/pos/page.tsx:211 | `includes` holds exactly when the term occurs at some position of the name |
| `Text.Contains` | app/pos/page.tsx:211 | no contract; `ContainsIffOccurs` states that it is the substring relation |
| `Text.ContainsEmpty` | app/pos/page.tsx:211 | every name includes the empty term |
| `Text.ContainsLowerEmpty` | app/dashboard/products/page.tsx:132-137 | an empty search term matches every lower-cased name |
| `Decimal.RoundCents` | app/pos/page.tsx:335 | rounding to cents lands on the cent grid and moves the value by at most half a cent |
| `Decimal.RoundCentsKeepsGrid` | app/pos/page.tsx:335 | rounding a value already on the cent grid does not change it |
| `Decimal.OnCentsAddSub` | app/pos/page.tsx:335 | sums and differences of cent values stay on the cent grid |
| `Decimal.ToFixed1` | app/pos/page.tsx:614 | `toFixed(1)` lands on the tenth grid, moves the value by at most 0.05 and keeps a non-negative value non-negative |
| `Decimal.OnTenthsAddSub` | app/pos/page.tsx:614 | sums and differences of tenth values stay on the tenth grid |
| `Decimal.ToFixed1KeepsGrid` | app/pos/page.tsx:614 | `toFixed(1)` leaves a value on the tenth grid unchanged |
| `Decimal.ToFixed1AtMost` | app/pos/page.tsx:1071-1072 | rounding to tenths never exceeds a bound that is itself on the tenth grid |
| `Decimal.IntegersOnGrids` | app/pos/page.tsx:1070 | whole numbers, such as a batch's stock, lie on both grids |
| `Cart.Step` | app/pos/page.tsx:334 | the step of every unit is positive and a whole number of cents |
| `Cart.StepOnGrid` | app/pos/page.tsx:335 | stepping a cent-grid quantity up or down by a unit's step needs no rounding |
| `Cart.FindLine` | app/pos/page.tsx:284 | the lookup fails exactly when no line has the key, and otherwise finds the first line with it |
| `Cart.Add` | app/pos/page.tsx:276-312 | NaN or a non-positive quantity leaves the cart unchanged; a new product and batch is appended as one line; an existing one has its quantity raised; unique keys and positive quantities are kept |
| `Cart.Remove` | app/pos/page.tsx:314-315 | removal never lengthens the cart, and a key no line has changes nothing |
| `Cart.RemoveMembers` | app/pos/page.tsx:315 | exactly the lines with another key survive a removal |
| `Cart.RemoveContents` | app/pos/page.tsx:314-315 | after a removal no line has the key, and unique keys and positive quantities are kept |
| `Cart.RemoveKeepsUnique` | app/pos/page.tsx:315 | removal keeps one line per product and batch |
| `Cart.OnlyQuantityKeepsKeys` | app/pos/page.tsx:327 | a change to quantities alone keeps every line's key and so keeps keys unique |
| `Cart.SetQuantity` | app/pos/page.tsx:323-328 | only the matching lines' quantities change, to the parsed value; NaN or a non-positive value changes nothing |
| `Cart.Increment` | app/pos/page.tsx:330-340 | only the matching lines change; their quantity grows by the unit's step, exactly for a cent-grid quantity; quantities stay positive |
| `Cart.Lowered` | app/pos/page.tsx:347 | the decremented quantity is on the cent grid and never below one step; it is the step itself or within half a cent of one step less, the step whenever one step less is below it and one step less whenever that clears the step; on the cent grid exactly max(q - step, step) |
| `Cart.Decrement` | app/pos/page.tsx:342-353 | only the matching lines change, each to the lowered quantity: one step less, rounded to cents, but never below one step |
| `Cart.GrandTotal` | app/pos/page.tsx:920-931 | the displayed total is the subtotal plus the 10% tax, and 0 for an empty cart |
| `Cart.Total` | app/pos/page.tsx:567-569 | no contract; its properties are `TotalConcat`, `TotalSnoc`, `TotalReplace`, `TotalDropOne` and `TotalNonNegative` |
| `Cart.Tax` | app/pos/page.tsx:926 | no contract; `GrandTotal` states that the total shown is the subtotal plus this tax |
| `Cart.TotalConcat` | app/pos/page.tsx:567-569 | the cart total of two carts joined is the sum of their totals |
| `Cart.TotalReplace` | app/pos/page.tsx:567-569 | replacing one line changes the total by the difference of the two line amounts |
| `Cart.TotalNonNegative` | app/pos/page.tsx:567-569 | with positive quantities and non-negative prices the total is non-negative |
| `Cart.AddNewLineTotal` | app/pos/page.tsx:289-309 | adding a positive quantity of a batch not yet in the cart raises the subtotal by that quantity times the batch price |
| `Cart.AddExistingTotal` | app/pos/page.tsx:284-288 | adding a positive quantity of a batch already in the cart raises the subtotal by that quantity times the price stored on its line |
| `Cart.RaiseLineTotal` | app/pos/page.tsx:287 | raising one line's quantity by q raises the subtotal by q times that line's price |
| `Cart.AddTwiceMerges` | app/pos/page.tsx:284-297 | adding the same product and batch twice yields one line holding both quantities |
| `Cart.RemoveHead` | app/pos/page.tsx:315 | with unique keys, removing the first line's key drops exactly the first line |
| `Cart.RemoveOneLine` | app/pos/page.tsx:314-315 | with unique keys, removing a line's key drops exactly that line and keeps the order of the others |
| `Cart.TotalDropOne` | app/pos/page.tsx:567-569 | dropping one line lowers the total by that line's amount |
| `Cart.RemoveLowersTotal` | app/pos/page.tsx:314-315 | removing a line lowers the total by exactly its amount |
| `Cart.TotalSnoc` | app/pos/page.tsx:567-569 | appending a line raises the total by its amount |
| `Scanner.OnKey` | app/pos/page.tsx:427-474 | a key is taken only if it is a character or Enter and it arrives within 50 ms or into an empty buffer; a taken character is appended and arms the clear timer; Enter hands over exactly the buffer and empties it |
| `Scanner.OnTick` | app/pos/page.tsx:466-469 | once the clear timer is due the buffer is emptied; before that nothing changes |
| `Scanner.KeyOf` | app/pos/page.tsx:429 | a key name of length one is a character key, `Enter` and the arrow and Escape names are those keys, and every other name is `Named`, never one character long |
| `Scanner.BurstFillsBuffer` | app/pos/page.tsx:433-469 | a burst of keys each within 50 ms of the previous fills the empty buffer with exactly the code |
| `Scanner.ScanResolves` | app/pos/page.tsx:440-460 | Enter within 50 ms of the last key of a burst hands over exactly the scanned code and empties the buffer |
| `Scanner.PauseTruncatesScan` | app/pos/page.tsx:466-469 | once the clear timer fires during a pause, the next character starts a new scan and Enter hands over only that character |
| `Scanner.FindByBarcode` | app/pos/page.tsx:444 | the first product with the barcode is found; the lookup fails exactly when no product has it |
| `PointOfSale.NameMatches` | app/pos/page.tsx:211 | the suggestions are exactly the products whose lower-cased name contains the lower-cased term, in catalog order (`NameMatchesConcat`); an empty term keeps all |
| `PointOfSale.NameMatchesConcat` | app/pos/page.tsx:211 | the suggestions of two catalog parts joined are those of each part in order, so the highlighted index names the product listed at that position |
| `PointOfSale.MoveDown` | app/pos/page.tsx:370-373 | moving down never leaves the list and never moves up |
| `PointOfSale.MoveUp` | app/pos/page.tsx:386-398 | moving up never moves down, and reaches the first row exactly from the first or second row |
| `PointOfSale.DownsClamp` | app/pos/page.tsx:369-383 | k presses of ArrowDown move to min(i + k, count - 1) |
| `PointOfSale.UpsClamp` | app/pos/page.tsx:386-398 | k presses of ArrowUp move to max(i - k, 0) |
| `PointOfSale.SelectProduct` | app/pos/page.tsx:253-274 | a product with one batch opens the quantity dialog with that batch and quantity 1; otherwise the batch dialog opens at the first batch; nothing else changes |
| `PointOfSale.SelectBatch` | app/pos/page.tsx:538-552 | choosing a batch closes the batch dialog and opens the quantity dialog with quantity 1 |
| `PointOfSale.BatchKey` | app/pos/page.tsx:508-529 | the batch dialog's arrows move the highlight within the batches, Enter selects the highlighted batch, and other keys or a closed dialog change nothing |
| `PointOfSale.CommitQuantity` | app/pos/page.tsx:554-565 | adding closes the quantity dialog and clears the batch; a valid quantity reaches the cart through `Add`; only the cart, the dialog and the batch change |
| `PointOfSale.TenthUpOnGrid` | app/pos/page.tsx:614 | ArrowUp on a tenth-grid quantity adds exactly 0.1 |
| `PointOfSale.TenthDownOnGrid` | app/pos/page.tsx:624 | ArrowDown on a tenth-grid quantity above 0.1 subtracts exactly 0.1 and stays at least 0.1 |
| `PointOfSale.QuantityUp` | app/pos/page.tsx:610-618 | ArrowUp yields a tenth-grid quantity: 0.1 from NaN, otherwise about 0.1 more, exactly 0.1 more on the grid |
| `PointOfSale.QuantityDown` | app/pos/page.tsx:620-626 | ArrowDown lowers a quantity above 0.1 by 0.1 and leaves NaN or 0.1 and below alone |
| `PointOfSale.QuantityPlus` | app/pos/page.tsx:1067-1076 | the plus button yields a tenth-grid quantity no larger than the batch's stock and 0.1 from NaN; when 0.1 more would pass the stock it is exactly the stock, otherwise within 0.05 of 0.1 more, and exactly 0.1 more on the grid |
| `PointOfSale.AddButtonWithinStock` | app/pos/page.tsx:1089-1091 | when the Add button is enabled the quantity is positive and within the batch's stock, and adding puts exactly it in the cart |
| `PointOfSale.AddDisabled` | app/pos/page.tsx:1089-1091 | no contract; `AddButtonWithinStock` and `EnterIgnoresStock` state what the disabled state guards |
| `PointOfSale.EnterIgnoresStock` | app/pos/page.tsx:628-631 | a quantity above the stock disables the button, yet Enter still adds it to the cart |
| `PointOfSale.QuantityKey` | app/pos/page.tsx:608-633 | the quantity field's keys: ArrowUp raises, ArrowDown lowers, Enter adds, anything else changes nothing |
| `PointOfSale.TermChanged` | app/pos/page.tsx:214-218 | a new term resets the highlighted suggestion to 0 exactly when the number of matches changes, keeping it in range |
| `PointOfSale.TypeSearch` | app/pos/page.tsx:709-712 | typing sets the term and shows the suggestions exactly when the term is non-empty, keeping the highlight in range |
| `PointOfSale.PickSuggestion` | app/pos/page.tsx:416-420 | picking a suggestion clears and hides the search, selects the product as a scan would, and leaves the cart alone |
| `PointOfSale.SelectionCommutes` | app/pos/page.tsx:416-420 | selecting a product commutes with changing the search term and hiding the suggestions, so the handler's order of updates does not matter |
| `PointOfSale.SearchKey` | app/pos/page.tsx:366-414 | with suggestions shown, the arrows move within them, Enter picks the highlighted one and Escape hides them; otherwise nothing changes; the highlight stays in range |
| `PointOfSale.ProductSearch` | app/pos/page.tsx:355-363 | submitting the search hides the suggestions and selects the highlighted match when there is one |
| `PointOfSale.Checkout` | app/pos/page.tsx:581-605 | a credit sale with no customer changes nothing; any other checkout empties the cart and changes nothing else |
| `PointOfSale.CheckoutEmptiesCart` | app/pos/page.tsx:911 | when the checkout button is enabled the cart is non-empty and checkout empties it |
| `PointOfSale.CheckoutEnabled` | app/pos/page.tsx:911 | no contract; `CheckoutEmptiesCart` states that an enabled button means a non-empty cart that checkout empties |
| `PointOfSale.Resolve` | app/pos/page.tsx:440-460 | a scanned code that matches a product selects it; otherwise the error names the code; the cart is untouched |
| `PointOfSale.GlobalKey` | app/pos/page.tsx:427-474 | the page-wide key handler advances the scan buffer as `Scanner.OnKey` does, resolves a completed scan, and never touches the cart |
| `PointOfSale.ScanSelectsProduct` | app/pos/page.tsx:427-474 | a fast burst of a product's barcode followed by Enter selects the first product with that barcode and empties the buffer |
| `PointOfSale.ScanAndCommitSingleBatch` | app/pos/page.tsx:257-265 | selecting a one-batch product and confirming the default quantity adds exactly one unit of that batch to the cart |
| `PointOfSale.ArrowsThenEnterPicksBatch` | app/pos/page.tsx:508-536 | opening the batch dialog, pressing ArrowDown k times and Enter selects batch min(k, count - 1) |
| `PointOfSale.PosPage.constructor` | app/pos/page.tsx:176-208 | the screen starts with an empty cart, cash payment, nothing selected and every dialog closed |
| `PointOfSale.PosPage.HandleProductSelection` | app/pos/page.tsx:253-274 | the new state is `SelectProduct` of the old one, and the invariant holds |
| `PointOfSale.PosPage.HandleBatchSelect` | app/pos/page.tsx:538-552 | the new state is `SelectBatch` of the old one |
| `PointOfSale.PosPage.HandleBatchDialogKeyDown` | app/pos/page.tsx:508-529 | the new state is `BatchKey` of the old one |
| `PointOfSale.PosPage.HighlightBatch` | app/pos/page.tsx:964-967 | clicking a batch row only moves the highlight |
| `PointOfSale.PosPage.CloseBatchDialog` | app/pos/page.tsx:1001 | Cancel only closes the batch dialog |
| `PointOfSale.PosPage.HandleAddQuantity` | app/pos/page.tsx:554-565 | the new state is `CommitQuantity` of the old one |
| `PointOfSale.PosPage.AddToCart` | app/pos/page.tsx:276-312 | only the cart changes, to `Add` of the selected product and batch |
| `PointOfSale.PosPage.HandleQuantityKeyDown` | app/pos/page.tsx:608-633 | the new state is `QuantityKey` of the old one |
| `PointOfSale.PosPage.QuantityMinus` | app/pos/page.tsx:1042-1047 | the minus button lowers the quantity as ArrowDown does |
| `PointOfSale.PosPage.QuantityPlusButton` | app/pos/page.tsx:1067-1076 | the plus button sets the quantity to `QuantityPlus`: 0.1 more, or exactly the batch's stock when 0.1 more would pass it; nothing else changes |
| `PointOfSale.PosPage.TypeQuantity` | app/pos/page.tsx:1055 | typing in the quantity field only changes the quantity |
| `PointOfSale.PosPage.CloseQuantityDialog` | app/pos/page.tsx:1084 | Cancel only closes the quantity dialog |
| `PointOfSale.PosPage.SetSearchTerm` | app/pos/page.tsx:709-712 | the new state is `TypeSearch` of the old one |
| `PointOfSale.PosPage.FocusSearch` | app/pos/page.tsx:713-715 | focusing shows the suggestions when the term is non-empty and changes nothing else |
| `PointOfSale.PosPage.ClickOutsideSearch` | app/pos/page.tsx:219-231 | a mouse press outside the search area only hides the suggestions |
| `PointOfSale.PosPage.HandleSearchKeyDown` | app/pos/page.tsx:366-414 | the new state is `SearchKey` of the old one |
| `PointOfSale.PosPage.HoverSuggestion` | app/pos/page.tsx:731 | hovering only moves the highlight to a listed suggestion |
| `PointOfSale.PosPage.HandleSelectSuggestion` | app/pos/page.tsx:416-420 | the new state is `PickSuggestion` of the old one |
| `PointOfSale.PosPage.HandleProductSearch` | app/pos/page.tsx:355-363 | the new state is `ProductSearch` of the old one |
| `PointOfSale.PosPage.RemoveFromCart` | app/pos/page.tsx:852 | only the cart changes, to `Remove` of the line |
| `PointOfSale.PosPage.UpdateQuantity` | app/pos/page.tsx:828 | only the cart changes, to `SetQuantity` of the typed value |
| `PointOfSale.PosPage.IncrementQuantity` | app/pos/page.tsx:837 | only the cart changes, to `Increment` of the line |
| `PointOfSale.PosPage.DecrementQuantity` | app/pos/page.tsx:821 | only the cart changes, to `Decrement` of the line |
| `PointOfSale.PosPage.ClearSale` | app/pos/page.tsx:906 | Clear empties the cart and changes nothing else |
| `PointOfSale.PosPage.SetPaymentMethod` | app/pos/page.tsx:872 | only the payment method changes |
| `PointOfSale.PosPage.SelectCustomer` | app/pos/page.tsx:1119-1122 | only the customer changes, to a chosen customer or to none |
| `PointOfSale.PosPage.HandleCheckout` | app/pos/page.tsx:581-605 | the new state is `Checkout` of the old one; a sale is recorded exactly when checkout proceeds, for the cart's subtotal |
| `PointOfSale.PosPage.ResolveScan` | app/pos/page.tsx:440-460 | the new state is `Resolve` of the old one, and the scan buffer and key time are untouched |
| `PointOfSale.PosPage.HandleGlobalKeyDown` | app/pos/page.tsx:427-474 | the new state is `GlobalKey` of the old one |
| `PointOfSale.PosPage.ScanEnter` | app/pos/page.tsx:440-460 | Enter within the scan window leaves the state `GlobalKey` describes: a pending code resolved, the buffer emptied, the timer disarmed |
| `PointOfSale.PosPage.ScanChar` | app/pos/page.tsx:461-469 | a character within the scan window leaves the state `GlobalKey` describes: appended to the buffer with the clear timer re-armed |
| `PointOfSale.PosPage.BarcodeTimerFires` | app/pos/page.tsx:466-469 | the clear timer only changes the scan state, as `Scanner.OnTick` does |
| `Catalog.StockConcat` | app/dashboard/products/page.tsx:146-148 | the stock of two batch lists joined is the sum of their stocks |
| `Catalog.Stock` | app/dashboard/products/page.tsx:146-148 | no contract; `StockConcat` and `RemoveBatchStock` state how it adds up |
| `Catalog.Value` | app/dashboard/products/page.tsx:155 | no contract; `ValueBounds` bounds it by the lowest and highest price times the stock |
| `Catalog.AveragePrice` | app/dashboard/products/page.tsx:151-159 | the average price is 0 with no batches or no stock, and otherwise times the stock gives the total value |
| `Catalog.ValueBounds` | app/dashboard/products/page.tsx:155 | with prices between lo and hi, the total value lies between lo and hi times the stock |
| `Catalog.AverageBetween` | app/dashboard/products/page.tsx:151-159 | the average price lies between the lowest and highest batch price |
| `Catalog.AverageIsQuotient` | app/dashboard/products/page.tsx:151-159 | with stock on hand the average is the total value over the total quantity |
| `Catalog.QuotientBetween` | app/dashboard/products/page.tsx:158 | a value between lo and hi times a positive quantity, divided by that quantity, lies between lo and hi |
| `Catalog.LatestIndex` | app/dashboard/products/page.tsx:162-171 | picks the batch with the latest expiry, the first one among ties |
| `Catalog.LatestUnique` | app/dashboard/products/page.tsx:166-170 | there is only one latest batch in that sense |
| `Catalog.LatestBatchPrice` | app/dashboard/products/page.tsx:162-171 | the latest-batch price is 0 with no batches, and otherwise the price of the latest batch |
| `Catalog.TakeLast` | app/dashboard/products/page.tsx:340 | `slice(-3)` keeps the last min(n, length) characters |
| `Catalog.PadZeros` | app/dashboard/products/page.tsx:340 | `padStart` with zeros prefixes exactly the missing zeros |
| `Catalog.GenerateBarcode` | app/dashboard/products/page.tsx:338-341 | a generated barcode has ten characters: "2000000" then the id's last three characters, zero-padded if the id is shorter; digits in give digits out |
| `Catalog.FilterProducts` | app/dashboard/products/page.tsx:132-137 | the table shows exactly the products whose name, category or barcode matches the term, in order; an empty term shows all |
| `Catalog.FilterConcat` | app/dashboard/products/page.tsx:132-137 | filtering distributes over joined product lists |
| `Catalog.FilterIdempotent` | app/dashboard/products/page.tsx:132-137 | filtering twice by the same term is filtering once |
| `Catalog.Without` | app/dashboard/products/page.tsx:141 | collapsing removes exactly that id and keeps the list free of duplicates |
| `Catalog.Toggled` | app/dashboard/products/page.tsx:139-143 | toggling flips membership of the id, leaves every other id as it was, appends a new id at the end and keeps the list free of duplicates |
| `Catalog.ToggleTwice` | app/dashboard/products/page.tsx:139-143 | toggling twice restores the set of expanded products, and the list itself when the id was collapsed |
| `Catalog.WithoutLast` | app/dashboard/products/page.tsx:141 | removing an id just appended restores the list |
| `Catalog.StockWarnings` | app/dashboard/products/page.tsx:1002-1012 | no product counts as both out of stock and low on stock; each count is 0 exactly when no product is in that state |
| `Catalog.TotalBatches` | app/dashboard/products/page.tsx:996 | no contract; `AppendBatchCounts` and `EditBatches` state how the handlers change it |
| `Catalog.NoStockCount` | app/dashboard/products/page.tsx:1002 | no contract; `StockWarnings` states when it is zero and that it never overlaps the low-stock count |
| `Catalog.LowStockCount` | app/dashboard/products/page.tsx:1009-1012 | no contract; `StockWarnings` states when it is zero and that it never overlaps the no-stock count |
| `Catalog.CategoryCount` | app/dashboard/products/page.tsx:1041 | a category's count is at most the number of products and 0 exactly when no product has it |
| `Catalog.Categories` | app/dashboard/products/page.tsx:1037 | the category list has no duplicates and holds exactly the products' categories |
| `Catalog.CategoryCountSnoc` | app/dashboard/products/page.tsx:1041 | appending a product adds one to its own category's count only |
| `Catalog.SumCountsSnoc` | app/dashboard/products/page.tsx:1037-1041 | appending a product adds one to the counts summed over a duplicate-free list exactly when the list holds its category |
| `Catalog.CategoriesPartition` | app/dashboard/products/page.tsx:1037-1041 | the per-category counts add up to the number of products |
| `Catalog.Edited` | app/dashboard/products/page.tsx:201-212 | an edited product keeps its id and batches, takes the form's fields, and keeps its image when the form's is empty |
| `Catalog.EditProducts` | app/dashboard/products/page.tsx:198-218 | exactly the products with the id are edited, in place; ids and batches are kept |
| `Catalog.RemoveProduct` | app/dashboard/products/page.tsx:220-222 | exactly the products with other ids remain, in order (`RemoveProductConcat`); the list shrinks by the number removed |
| `Catalog.RemoveProductConcat` | app/dashboard/products/page.tsx:221 | deleting from two product lists joined deletes from each and keeps them in order |
| `Catalog.RemoveProductOne` | app/dashboard/products/page.tsx:220-222 | when one product carries the id, deleting it drops exactly that product and keeps the others in order |
| `Catalog.CountIdConcat` | app/dashboard/products/page.tsx:221 | the number of products carrying an id adds up over joined lists |
| `Catalog.AppendBatch` | app/dashboard/products/page.tsx:279-287 | the new batch is appended to every product with the id; the others are unchanged |
| `Catalog.AppendBatchCounts` | app/dashboard/products/page.tsx:268-291 | adding a batch raises the batch count by one per matching product and that product's stock by the batch's quantity |
| `Catalog.Rewritten` | app/dashboard/products/page.tsx:298-308 | an edited batch keeps its id and takes the form's number, expiry, quantity and price |
| `Catalog.EditBatchIn` | app/dashboard/products/page.tsx:298-308 | exactly the batches with the id are rewritten, in place |
| `Catalog.EditBatches` | app/dashboard/products/page.tsx:293-322 | only the chosen product's chosen batch is rewritten, and the number of batches is unchanged |
| `Catalog.RemoveBatchIn` | app/dashboard/products/page.tsx:329 | exactly the batches with other ids remain, in order (`RemoveBatchInConcat`), and the list never grows |
| `Catalog.RemoveBatchInConcat` | app/dashboard/products/page.tsx:329 | deleting from two batch lists joined deletes from each and keeps them in order |
| `Catalog.RemoveBatchOne` | app/dashboard/products/page.tsx:324-336 | with unique batch ids, deleting a batch drops exactly that batch and keeps the others in order, so `LatestBatchPrice` breaks ties among the rest as before |
| `Catalog.RemoveFirstBatch` | app/dashboard/products/page.tsx:329 | with unique batch ids, deleting the first batch's id drops exactly the first batch |
| `Catalog.RemoveAbsentBatch` | app/dashboard/products/page.tsx:329 | deleting an id no batch carries changes nothing |
| `Catalog.RemoveBatchStock` | app/dashboard/products/page.tsx:324-336 | with unique batch ids, deleting a batch lowers the stock by its quantity |
| `Catalog.RemoveBatch` | app/dashboard/products/page.tsx:324-336 | only the chosen product loses the batch; the other products are unchanged |
| `Catalog.NewProduct` | app/dashboard/products/page.tsx:174-195 | a new product has the given id, no batches and the form's fields; an empty barcode is generated, an empty image becomes the placeholder |
| `Catalog.PlaceholderUrl` | app/dashboard/products/page.tsx:182 | no contract; the placeholder image URL, with the product name as its query |
| `ProductsScreen.NewBatch` | app/dashboard/products/page.tsx:271-277 | the new batch's id is the product id, a dash and the stamp; its other fields come from the form |
| `ProductsScreen.ProductsPage.Shown` | app/dashboard/products/page.tsx:132-137 | the table shows exactly the products matching the current term |
| `ProductsScreen.ProductsPage.constructor` | app/dashboard/products/page.tsx:105-113 | the screen starts with the initial catalog, nothing expanded or selected and every dialog closed |
| `ProductsScreen.ProductsPage.SetSearchTerm` | app/dashboard/products/page.tsx:687 | only the search term changes |
| `ProductsScreen.ProductsPage.ToggleProductExpand` | app/dashboard/products/page.tsx:139-143 | only the expanded list changes, to `Toggled`, and it stays free of duplicates |
| `ProductsScreen.ProductsPage.HandleAddProduct` | app/dashboard/products/page.tsx:174-195 | the new product is appended and the dialog closes |
| `ProductsScreen.ProductsPage.HandleEditProduct` | app/dashboard/products/page.tsx:198-218 | with no product selected nothing changes; otherwise the selected product is edited and the dialog closes |
| `ProductsScreen.ProductsPage.HandleDeleteProduct` | app/dashboard/products/page.tsx:220-222 | only the product list changes, to `RemoveProduct` |
| `ProductsScreen.ProductsPage.OpenEditProductDialog` | app/dashboard/products/page.tsx:225-236 | selects the product and opens the dialog for editing |
| `ProductsScreen.ProductsPage.OpenProductDetail` | app/dashboard/products/page.tsx:238-241 | selects the product and opens its detail view |
| `ProductsScreen.ProductsPage.OpenAddBatchDialog` | app/dashboard/products/page.tsx:243-253 | selects the product and opens the batch dialog for adding |
| `ProductsScreen.ProductsPage.OpenEditBatchDialog` | app/dashboard/products/page.tsx:255-266 | selects the product and batch and opens the batch dialog for editing |
| `ProductsScreen.ProductsPage.HandleAddBatch` | app/dashboard/products/page.tsx:268-291 | with no product selected nothing changes; otherwise the new batch is appended to it and the dialog closes |
| `ProductsScreen.ProductsPage.HandleEditBatch` | app/dashboard/products/page.tsx:293-322 | unless a product and a batch are selected nothing changes; otherwise that batch is rewritten and the dialog closes |
| `ProductsScreen.ProductsPage.HandleDeleteBatch` | app/dashboard/products/page.tsx:324-336 | only the product list changes, to `RemoveBatch` |
| `ProductsScreen.ProductsPage.SubmitProductDialog` | app/dashboard/products/page.tsx:464 | submitting edits when editing and adds otherwise; editing with no product selected changes nothing |
| `ProductsScreen.ProductsPage.SubmitBatchDialog` | app/dashboard/products/page.tsx:539 | submitting edits the batch when editing and adds one otherwise; editing without a selected product or batch, or adding without a selected product, changes nothing |
| `ProductsScreen.ProductsPage.SetProductDialogOpen` | app/dashboard/products/page.tsx:355-361 | the "Add Product" trigger and the dialog's own dismissal only open or close the product dialog; `isEditing` is kept |
| `ProductsScreen.ProductsPage.SetBatchDialogOpen` | app/dashboard/products/page.tsx:472 | the batch dialog's own dismissal only closes it; `isEditing` is kept |
| `ProductsScreen.ProductsPage.SetProductDetailOpen` | app/dashboard/products/page.tsx:547 | the detail view's own dismissal only closes it |
| `ProductsScreen.ProductsPage.CancelProductDialog` | app/dashboard/products/page.tsx:457-460 | Cancel closes the product dialog and leaves editing mode |
| `ProductsScreen.ProductsPage.CancelBatchDialog` | app/dashboard/products/page.tsx:532-535 | Cancel closes the batch dialog and leaves editing mode |
| `ProductsScreen.DismissedEditThenAdd` | app/dashboard/products/page.tsx:355-361 | after an edit dialog is dismissed rather than cancelled, "Add Product" then submit edits the earlier product instead of adding one: the list keeps its length and equals `EditProducts` of it |

## Left out

- Rendering, focus and scrolling are left out: they do not change the modelled state.
- The POS screen's success message (app/pos/page.tsx:187, 305, 598) is left out: the state has no field for it. The error message is modelled but is not cleared after 3 seconds. Console logging is left out.
- One key press reaching two handlers is left out. The window's keydown listener (app/pos/page.tsx:427-478) also sees every key typed into the search box (716) and the quantity field (1056). A character typed there also enters the barcode buffer. An Enter it takes (empty buffer or within 50 ms) gets `preventDefault`, which cancels the search form's implicit submit (701), so `handleProductSearch` runs only on an Enter the listener ignores. The model offers `HandleGlobalKeyDown`, `HandleSearchKeyDown`, `HandleProductSearch` and `HandleQuantityKeyDown` as separate events, and none of them promises anything about the combined effect.
- Clock readings are parameters: key times, the ids and barcodes built from `Date.now()`, and the batch id stamp.
- The "expiring soon" summary count (app/dashboard/products/page.tsx:1016-1031) is left out because it depends on the wall clock.
- Dates are modelled as integer keys ordered like the dates. Locale date formatting is left out.
- Numbers are reals, not IEEE doubles. `Math.round`, `toFixed` and `parseFloat` are modelled on exact values, so float error in sums and in 0.1 steps is not captured.
- The batch form's `parseInt` and `parseFloat` yielding NaN is left out: the submitted forms carry already-parsed numbers.
- Lower-casing folds ASCII letters only.
- Catalog.PlaceholderUrl: the product name is placed in the URL without `encodeURIComponent`.
- The keyboard listener's re-registration on every render and its cleanup are left out (app/pos/page.tsx:480-486). The model keeps a single handler that sees the current state, with no stale closures, and the clear timer survives re-renders.
- The barcode input form (`handleBarcodeSearch`, app/pos/page.tsx:489-505) is left out.
- The barcode-assign dialog's state is left out, and so is the POS screen's unused `generateBarcode` (app/pos/page.tsx:650-653).
- The customer dialog is reduced to setting or clearing the customer.
- The batch picker's radio-group change handler (app/pos/page.tsx:952-956) and its double-click shortcut (app/pos/page.tsx:968) are left out. The row click and the Select button are modelled.
- Pre-filling and resetting the form fields when a dialog opens or closes is left out, because the submitted form is a parameter.
- The cart line whose quantity `addToCart` raises is replaced by an updated copy rather than mutated in place (app/pos/page.tsx:287); with no aliasing in the model the resulting cart is the same.
- The POS screen's invariant does not bound the batch highlight by the selected product's batch count, because the code does not keep that bound (see above).

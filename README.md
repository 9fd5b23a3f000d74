# Shop point of sale and print-job board, modelled in Dafny

This project models the business logic of a single-shop point-of-sale and
print-job tracker (a photocopy, printing and stationery shop) whose whole
program is `app.js`. The browser database, the DOM and the clock are
abstracted away. What remains is modelled and proved:

- **The cart.** A mutable ordered list of lines, each with a product id, a
  name and price snapshot, a quantity and a line total. Lines are added
  from the product cache, removed, or have their quantity changed. Totals
  are computed with a discount that is not clamped.
- **Checkout.** An empty cart is refused. Otherwise one sale is recorded,
  a loop takes each line's quantity off the stock of every product that
  still exists, and then the cart and the product cache are emptied.
- **The product grid's filter.** An optional category filter is followed by
  an optional case-insensitive search on the name and a plain substring
  search on the barcode.
- **The job board.** Every job status is mapped onto one of the four columns
  Pending, Designing, Printing and Completed, and the cards in each column
  are counted. The balance is shown both on a card and in the edit form,
  and the edit form normalises the legacy status "Printing/Cutting".
- **The daily report.** This covers revenue, and a cost estimated from the
  products' current cost prices.

Modules, one per part of the program:

| file | module | models |
|---|---|---|
| wrappers.dfy | `Wrappers` | `Option`, used for form fields that may be blank or not a number (`x || 0`) |
| text.dfy | `Text` | `toLowerCase` and `includes` |
| records.dfy | `Records` | the product, sale and job records, and `Store`: the products map and the sales list |
| cart_lines.dfy | `CartLines` | the cart as a value: find, add, splice, adjust, totals, and what each one keeps |
| catalog.dfy | `Catalog` | the filter in `renderProducts` |
| pos.dfy | `Pos` | the class `PointOfSale` (the cart, the product cache and the discount field) and the checkout stock loop |
| jobs.dfy | `Jobs` | the kanban columns and counts, the balances, and the edit and save of a job |
| reports.dfy | `Reports` | the day's sales, revenue, and the nested cost loop |
| scenario.dfy | `Scenario` | two client methods: a two-product checkout with a discount, and a job edit from Pending to Completed |

Money is in integer cents. A form field that is blank or not a number is
`None` and reads as 0, as the source's `parseFloat(...) || 0` does.

The cart invariant is `CartLines.ValidCart`. It requires every quantity to
be at least 1, every line total to equal quantity times price, and no two
lines to share a product id. Every `PointOfSale` method preserves it. With
`CartLines.SubtotalIsGross`, this means the subtotal always equals the sum
of price times quantity, whatever sequence of cart operations came before.

The model follows the code as written:

- The stored status is not normalised on save. `saveJob` stores whatever the
  form holds (app.js:528, 533). Only the edit form's prefill maps
  "Printing/Cutting" to "Printing" (app.js:510). A legacy record therefore
  stays legacy until someone opens it and saves it (`Jobs.EditThenSave`).
- Job amounts are not checked to be non-negative. They are only parsed,
  with 0 as the fallback.
- `removeFromCart` is `splice(index, 1)`. A negative index removes a line
  counted from the end, and an index past the end removes nothing
  (`CartLines.Spliced`).
- The report's day is `between(startOfDay, endOfDay)`. That range includes
  the lower bound and excludes the upper one, so the day is
  `start <= date < end`.
- Saving an edited job overwrites `dateCreated` with the current time.
- The search lower-cases the term and the name, but not the barcode
  (`Catalog.BarcodeSearchIsCaseSensitive`).

## Model

| member | source | states |
|---|---|---|
| Text.ToLower | app.js:137-138 | lower-casing keeps the length and maps each character on its own |
| Text.IncludesIffOccurs | app.js:138 | `s.includes(t)` holds exactly when `t` occurs in `s` at some position (both directions) |
| CartLines.ProductIndex | app.js:158-159 | finds the first cached product with the id, or reports that none has it |
| CartLines.LineIndex | app.js:165 | finds the first cart line with the product id, or reports that none has it |
| CartLines.Added | app.js:157-179 | an id not in the cache leaves the cart unchanged. A product already in the cart gets one more unit on its line: the total is recomputed from the line's price, the length is the same and no other line changes. A new product is appended as one unit at its selling price. The cart invariant, including unique ids, is kept |
| CartLines.Removed | app.js:182 | deleting line k shortens the cart by one and keeps the other lines in order |
| CartLines.Spliced | app.js:181-184 | `splice(index, 1)`: an index in range deletes that line, a negative index counts from the end, an index before the start deletes the first line (or nothing from an empty cart), an index past the end removes nothing. The invariant is kept |
| CartLines.Adjusted | app.js:186-195 | if quantity plus change is at most 0, exactly line k is deleted. Otherwise only line k changes, to the new quantity with its total recomputed. The invariant is kept |
| CartLines.CartTotals | app.js:226-236 | for a valid cart the subtotal is the sum of price times quantity. The discount is the parsed entry or 0, and total = subtotal − discount, not clamped |
| CartLines.DisplayedTotal | app.js:233 | the displayed total is never negative, and it is the total or 0 |
| CartLines.SubtotalIsGross | app.js:227 | summing line totals equals summing price times quantity once every line is well formed |
| CartLines.SubtotalUpdate | app.js:168 | replacing a line changes the subtotal by the difference of the two line totals |
| CartLines.SubtotalRemoved | app.js:190 | deleting a line lowers the subtotal by that line's total |
| CartLines.QuantityUpdate | app.js:167-168 | replacing a line changes each product's unit count by what the old and new lines hold of it |
| CartLines.QuantityRemoved | app.js:189-190 | deleting a line removes exactly its units of its product |
| CartLines.QuantityAbsent | app.js:279-285 | a product on no line has no units in the cart |
| CartLines.QuantityOfLine | app.js:165-177 | with unique ids, a product's unit count is the quantity on its one line |
| CartLines.AddedQuantity | app.js:165-177 | adding a cached product raises its unit count by one and leaves every other product's count unchanged. An uncached id changes nothing |
| CartLines.AddedSubtotal | app.js:165-177 | adding a cached product raises the subtotal by the line's price snapshot if it was in the cart, and by its selling price otherwise |
| Catalog.SubsequenceTransitive | app.js:130-139 | filtering a filtered list still yields an order-preserving subsequence |
| Catalog.ByCategory | app.js:132-134 | keeps exactly the products of the category, in their order |
| Catalog.BySearch | app.js:136-139 | keeps exactly the products whose lower-cased name, or non-empty barcode, contains the term, in their order |
| Catalog.Visible | app.js:130-139 | the grid shows an order-preserving subsequence of the cache. A product is shown exactly when it passes both active filters. Category 'all' with an empty search shows the whole cache |
| Catalog.BarcodeSearchIsCaseSensitive | app.js:137-138 | a barcode with capital letters is found by its digits but not by its letters, in either case |
| Pos.RestockedAt | app.js:279-285 | the stock loop creates and deletes no product and changes only stock. Each product loses exactly the units the lines hold of it |
| Pos.RestockedKeys | app.js:279-285 | the stock loop leaves the set of product ids unchanged |
| Pos.CheckoutStock | app.js:279-285 | for a cart of unique ids, each existing referenced product's stock becomes old stock − line quantity. Every unreferenced product is unchanged, and missing products stay missing |
| Pos.PointOfSale.RenderProducts | app.js:125-139 | an empty cache is refilled from the store's listing. The result is the filter of the cache, and the cart is untouched |
| Pos.PointOfSale.AddToCart | app.js:157-179 | the new cart is `Added` of the old one. The cache and discount are unchanged and the invariant is kept |
| Pos.PointOfSale.RemoveFromCart | app.js:181-184 | the new cart is `Spliced` of the old one. The invariant is kept |
| Pos.PointOfSale.UpdateQuantity | app.js:186-195 | for an index in range, the new cart is `Adjusted` of the old one. The invariant is kept |
| Pos.PointOfSale.ClearCart | app.js:238-242 | the cart is empty, the discount field is blank and the cache is untouched |
| Pos.PointOfSale.Checkout | app.js:257-300 | an empty cart records no sale and changes no stock, cart, cache or discount. Otherwise exactly one sale is appended, holding the pre-checkout cart, its subtotal, discount and unclamped total, and the method "cash". The products become the stock loop's result, and the cart, discount and cache end empty |
| Jobs.Normalised | app.js:510 | the legacy "Printing/Cutting" becomes "Printing". Every other status is kept. The result is never the legacy name |
| Jobs.Classify | app.js:453-457 | a canonical status goes to its own column, "Printing/Cutting" goes to Printing, and every other status goes to Pending |
| Jobs.ClassifyColumnKey | app.js:439-448 | each column's key classifies into that column |
| Jobs.NormalisedKeepsColumn | app.js:456 | normalising does not move a card, and normalising twice equals normalising once |
| Jobs.ColumnAsWritten | app.js:455-457 | the lookup as written: for a status that names an inherited Object property, the fallback is skipped and the render fails |
| Jobs.ColumnAsWrittenAgrees | app.js:455-457 | on every status that is not an inherited property name, the code as written agrees with `Classify` |
| Jobs.InheritedStatusBreaksBoard | app.js:457 | status "toString" breaks the board as written, while `Classify` sends it to Pending |
| Jobs.Board.Append | app.js:482 | appending a card extends only its own column |
| Jobs.Counts.Bump | app.js:459 | incrementing a count raises only that count, and the total by one |
| Jobs.TallyAppend | app.js:459 | appending a card and bumping its count keep the counts in step with the columns |
| Jobs.BoardOfColumns | app.js:453-483 | the loop's board holds, in each column, the cards of exactly the jobs classified there, in job order |
| Jobs.ColumnsPartition | app.js:446-459 | the four column sizes add up to the number of jobs |
| Jobs.RenderKanban | app.js:435-490 | each column holds the cards of its jobs, classified by the corrected `Classify`. Each count is the size of its column, and the four counts sum to the number of jobs |
| Jobs.EditFormBalance | app.js:549-553 | the balance the edit form computes is the card's balance, `totalAmount − (advance or 0)` |
| Jobs.EditThenSave | app.js:500-536 | opening and saving a job unchanged stores the normalised status (a legacy job becomes "Printing"). Its column, balance and other fields are kept, and `dateCreated` becomes the save time |
| Reports.DaySales | app.js:570 | keeps exactly the sales with start ≤ date < end, each as many times as it is stored, and no other sale |
| Reports.TotalCost | app.js:590-599 | the nested loop's total is the sum over all items of cost price times quantity, skipping deleted products |
| Reports.Generate | app.js:563-601 | the report holds the day's sale count, the revenue (sum of unclamped totals) and revenue − cost |
| Reports.RevenueAfterSale | app.js:265-276 | a recorded sale adds its total to its own day's revenue and to no other day's |
| Reports.ItemsCostAfterDelete | app.js:592-597 | for one sale's items, deleting a product lowers the cost by its cost price times its units |
| Reports.CostAfterDelete | app.js:590-599 | deleting a product lowers the estimated cost by its cost price times the units sold |

## Findings

| source | as written | input that shows it | evidently intended | confidence | as-written member | corrected member |
|---|---|---|---|---|---|---|
| app.js:457 | `if (!columns[colKey]) colKey = 'Pending'` tests a plain object, which also answers for inherited property names. Those names skip the fallback, and `columns[colKey].appendChild` then throws at app.js:482. The columns were already cleared (app.js:451) and hold the cards of the earlier jobs, but no later card is drawn and the counts (app.js:486-489) are never updated | a job whose status is "toString" (or "constructor", "__proto__", ...) | every unknown status falls back to the Pending column | medium (statuses normally come from the form's status list); not executed | Jobs.ColumnAsWritten, Jobs.InheritedStatusBreaksBoard | Jobs.Classify |

## Left out

- The database engine: the records live in a browser database. `Store` replaces it with a map and a list, and store calls always succeed.
- The dashboard's queries are not modelled.
- The order of `toArray` results is not modelled: `RenderProducts` and `RenderKanban` take the listing as a parameter.
- Checkout's failure branch (app.js:296-299) is not modelled. On failure the sale can persist while stock updates are missing for the remaining lines.
- Interleaving at the `await` points is not modelled. For example, a cart change made while checkout awaits the store would be seen by its stock loop.
- The sale id that `db.sales.add` returns is not modelled, because it is used only by the receipt.
- Adding a new job, where the store assigns its id, is not modelled.
- `Date.now()` and the day bounds are not computed: they are parameters (`now`, `start`, `end`). `setHours` and time zones are not modelled.
- Floating-point money, `toFixed(2)`, `formatCurrency` and `toLocaleString` are not modelled. Amounts are exact integers.
- `parseFloat` and `parseInt` of form fields are not modelled: fields arrive already parsed, as `Option<int>`.
- The stock read at checkout (app.js:282) does `parseInt(product.stockQuantity) || 0`. Stock is stored as an integer, so the model reads it as is.
- Jobs.RenderKanban: classifies with the corrected `Classify`. On a job list with a status such as "toString", the source throws at app.js:482, but the model returns a complete board. `Jobs.ColumnAsWritten` models the code as written.
- Pos.PointOfSale.UpdateQuantity: requires an index in range. The source throws a TypeError at app.js:187-188 for an index outside the cart, and its only callers, the cart's buttons (app.js:212-214), pass the index of a shown line.
- Text.ToLower: only ASCII letters are lower-cased, not the full Unicode mapping of `toLowerCase`.
- DOM rendering is not modelled: receipts, modals, alerts, icons, routing and the colour of cards.
- A `<select>` element does not keep a value that has no matching option. The edit form model holds whatever string the prefill gives.
- The inventory module (`saveProduct`, `deleteProduct`, `editProduct`) is not modelled. `Reports.CostAfterDelete` states what a deletion does to the report.
- `importDummyData`, `backupData`, `startClock` and the unused `itemsPromises` (app.js:571-574) are not modelled.
- Shared line objects are not modelled. In the source, the cart and the recorded sale's items share the same line objects. Checkout then replaces the cart with a new empty list, so when checkout succeeds the sharing is never observed. The model's lines are values.

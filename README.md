# Receipt generator: the point-of-sale logic, in Dafny

The page is a React point-of-sale helper for a bakery and café. It shows a
menu of priced items in two columns. Each row has "-" and "+" buttons for its
quantity. A form appends new items, and a button turns the chosen quantities
into a receipt: the lines bought and their total. All of this lives in
`src/App.js`. The logic sits inside event handlers as `map`, `filter`,
`reduce`, spread and `slice` expressions. This project lifts each one out as a
pure Dafny function over a catalog, a `seq<Item>` of names and integer prices,
and proves what the page relies on.

Modules:

- `Wrappers`: `Option`, which stands for JavaScript's `null` and `undefined`.
- `Catalog`: `Item`, JavaScript's `trim`, the add-item check and append, and the item list read at start-up.
- `Quantities`: the zeroed counters of a newly mounted menu, and `handleQuantityChange`.
- `Receipts`: `handleGenerateReceipt`, as its map, filter and left-fold reduce steps.
  - It also defines position-by-position reference definitions (`PurchasedIndices`, `OrderValue`, `DotProduct`).
  - Lemmas tie the receipt to those definitions.
- `Columns`: the `Math.ceil(n / 2)` split into two columns, and the catalog position behind each row's buttons.
- `Session`: the whole page as a state and a step function.
  - The menu shows while `receiptData` is null and the receipt shows otherwise.
  - The state also records what the browser store holds.
  - A `Valid` invariant holds in every reachable state.

Two behaviours of the code are modelled as written:

- **Counters are not resized.** The menu's counters are sized once, when the menu mounts (`src/App.js:45`). Adding an item does not resize them.
  - The new row's buttons therefore change nothing: `map` visits only the old positions.
  - Its `quantities[i]` reads `undefined`. `undefined > 0` is false, so the row never reaches the receipt.
  - Closing the receipt mounts a new menu, sized to the current list.
- **Rejected additions.** An add with a blank name or a missing, zero or negative price is rejected. The list and the store stay unchanged.

Two further facts about the code shape the model:

- `handleQuantityChange` places no bound on `index`. An index outside the counter list matches no position in the `map` at `src/App.js:49`, so it changes nothing.
- The page has no discount and no way to delete an item.

## Model

| member | source | states |
|---|---|---|
| `Catalog.TrimStart` | src/App.js:69 | the result is a suffix of the input; everything dropped is trimmable whitespace; the result does not start with whitespace |
| `Catalog.TrimEnd` | src/App.js:69 | the result is a prefix of the input; everything dropped is trimmable whitespace; the result does not end with whitespace |
| `Catalog.Trim` | src/App.js:69 | `trim()` yields a contiguous slice of the name; only whitespace lies on either side of it; it neither starts nor ends with whitespace |
| `Catalog.TrimEmptyIffBlank` | src/App.js:69-71 | the trimmed name is empty exactly when the raw name consists only of whitespace, which is the `!name` rejection |
| `Catalog.TrimIdempotent` | src/App.js:69 | trimming a trimmed name changes nothing |
| `Catalog.Load` | src/App.js:21-23 | at start-up the list is the stored one when the store yields a list, and the defaults otherwise |
| `Catalog.NewItem` | src/App.js:69-72 | the form is accepted exactly when the trimmed name is non-empty and the price is a number greater than zero; the item built is `{name: trimmed name, price}` |
| `Catalog.AddItem` | src/App.js:67-73 | a rejected form leaves the list unchanged; an accepted one gives a list one longer, with the old entries unchanged in front and `{trimmed name, price}` last |
| `Catalog.AddItemPreservesWellFormed` | src/App.js:69-72 | if every entry has a non-empty trimmed name and a positive price, that still holds after an add |
| `Quantities.Zeros` | src/App.js:45 | a newly mounted menu has one counter per entry, all zero |
| `Quantities.Adjust` | src/App.js:47-51 | the length is kept; every other position is unchanged; position `index`, when it exists, becomes `max(0, q + delta)` |
| `Quantities.AdjustOutOfRange` | src/App.js:49 | an index outside the list returns it unchanged |
| `Quantities.AdjustKeepsNonNegative` | src/App.js:49 | non-negative counters stay non-negative |
| `Quantities.DecrementAtZero` | src/App.js:49 | "-" on a zero counter leaves the counters as they were |
| `Quantities.IncrementThenDecrement` | src/App.js:49 | on non-negative counters, "+" then "-" on the same row restores them |
| `Receipts.Rows` | src/App.js:54-59 | the `map` step gives one row per entry, with that entry's name and price; the row's quantity is the counter at its position when that position exists, and `undefined` otherwise |
| `Receipts.Kept` | src/App.js:60 | the `filter` test `quantity > 0` holds only for a row whose quantity is a number, so its subtotal is a number equal to price × quantity |
| `Receipts.KeepPurchased` | src/App.js:60 | the filter keeps at most as many rows as it gets; every kept line has a positive quantity and subtotal equal to price times quantity |
| `Receipts.SumFrom` | src/App.js:62 | the `reduce` left fold over the subtotals; its meaning is stated by `Receipts.SumFromIsSum` |
| `Receipts.PurchasedItems` | src/App.js:54-60 | map then filter gives at most one line per entry, each with quantity > 0 and subtotal = price × quantity; `Receipts.PurchasedItemsExact` states its exact content |
| `Receipts.SumFromIsSum` | src/App.js:62 | the `reduce` left fold from `acc` equals `acc` plus the sum of the subtotals |
| `Receipts.GenerateReceipt` | src/App.js:53-64 | at most one line per entry; every line has quantity > 0 and subtotal = price × quantity; the total is the sum of the lines' subtotals |
| `Receipts.PurchasedIndicesExact` | src/App.js:54-60 | the bought positions are listed once each, in increasing order; every listed position is bought, and every bought position is listed |
| `Receipts.ReceiptLinesExact` | src/App.js:54-60 | the receipt has exactly one line per bought position: every bought position is listed, each once, in increasing catalog order; each line is that entry's name and price, its counter, and price × counter |
| `Receipts.PurchasedItemsExact` | src/App.js:54-60 | the map-then-filter result has one line per bought position, in catalog order, each built from that entry and its counter |
| `Receipts.ReceiptTotalIsOrderValue` | src/App.js:54-62 | the total is the sum over all positions of price × counter, counting only bought positions |
| `Receipts.ReceiptTotalIsDotProduct` | src/App.js:54-62 | with one non-negative counter per entry, the total is the plain sum of price × counter over all positions |
| `Receipts.OrderValueIsDotProduct` | src/App.js:58-62 | with non-negative counters, unbought positions contribute nothing to the sum |
| `Receipts.NothingSelected` | src/App.js:60-62 | when no counter is positive, the receipt has no lines and a total of 0 |
| `Receipts.ReceiptAppend` | src/App.js:54-62 | the receipt of two lists placed one after the other has the lines of the first, then those of the second; its total is the sum of their totals |
| `Receipts.TotalOrderIndependent` | src/App.js:62 | swapping two blocks of entries, together with their counters, leaves the total unchanged |
| `Receipts.ReceiptIgnoresUncountedItems` | src/App.js:54-60 | entries beyond the end of the counters never reach the receipt, because `undefined > 0` is false |
| `Receipts.NoneKept` | src/App.js:60 | rows whose quantity is `undefined` are all dropped by the filter |
| `Receipts.CookieAndLatteExample` | src/App.js:53-64 | two cookies at 20 000 and one latte at 28 000 give the lines 40 000 and 28 000 and a total of 68 000 |
| `Columns.Mid` | src/App.js:79 | `mid` is the ceiling of half the length |
| `Columns.ColumnItems` | src/App.js:79-81 | the left column is the first `mid` entries and the right column the entries from `mid` on, row `k` showing entry `mid + k`; `Columns.ColumnsPartition` states how they split the list |
| `Columns.ColumnsPartition` | src/App.js:79-81 | left column followed by right column is the item list; the left column has as many rows as the right, or one more |
| `Columns.CatalogIndex` | src/App.js:129-145 | the contract places the position inside the list, below `mid` exactly for left-column rows; the body gives `index` on the left and `mid + index` on the right, as at src/App.js:107 and src/App.js:139 |
| `Columns.CellOf` | src/App.js:97-145 | each catalog position is shown at a row that exists in its column |
| `Columns.RowShowsItsEntry` | src/App.js:97-145 | the entry a row shows is the entry at the position its buttons and counter use |
| `Columns.CellOfInvertsCatalogIndex` | src/App.js:129-145 | a row's catalog position leads back to the same row |
| `Columns.CatalogIndexInvertsCellOf` | src/App.js:97-145 | a catalog position's row leads back to the same position |
| `Session.ReceiptData` | src/App.js:27-39 | `receiptData` is set exactly while the receipt screen is shown |
| `Session.MountMenu` | src/App.js:45 | a mounted menu has one counter per entry, all zero |
| `Session.Start` | src/App.js:20-23 | at start-up `receiptData` is null, so the menu shows with zero counters; the list is the stored one when there is one, and the defaults otherwise |
| `Session.Step` | src/App.js:27-76 | no user action removes or reorders entries: the old list is a prefix of the new one |
| `Session.Run` | src/App.js:27-76 | over any sequence of actions, the list only grows at its end |
| `Session.StartValid` | src/App.js:20-23 | the start-up state satisfies the page invariant |
| `Session.StepPreservesValid` | src/App.js:27-76 | every action keeps the invariant: the list is what a reload would read; the mounted menu's counters are non-negative and no longer than the list |
| `Session.RunPreservesValid` | src/App.js:27-76 | every sequence of actions keeps the invariant |
| `Session.ReloadRestoresItemList` | src/App.js:22-74 | after any sequence of actions, a reload reads back the same item list |
| `Session.GenerateThenClose` | src/App.js:27-35 | generating sets `receiptData` to the receipt of the current list and counters; closing clears it and shows the menu with the same list and all counters at zero |
| `Session.AddedItemUncounted` | src/App.js:45-73 | after an accepted add, the list is one longer and the counters are unchanged; the new row's buttons change nothing; the next receipt equals the one for the list without the new entry |
| `Session.QuantityClickEffect` | src/App.js:47-51 | a "-" or "+" click on the menu leaves the list, the store and the screen as they are and replaces the counters by their adjusted copy |
| `Session.AcceptedAddEffect` | src/App.js:67-74 | an accepted add on the menu makes the list the old one with the new entry appended, writes that list to the store, and leaves the counters as they are |
| `Session.RejectedAddChangesNothing` | src/App.js:71 | a blank name or a missing or non-positive price leaves the whole state, the store included, unchanged |

## Left out

- The JSX rendering, the table layout, and the form element handling (`preventDefault`, `reset`, input attributes): these are presentation only.
- The `toLocaleString` rupiah formatting of prices, subtotals and the total: this is locale presentation.
- The browser store and JSON are not modelled as I/O.
  - The store is a field that an accepted add replaces wholesale. The write is assumed to succeed: if `localStorage.setItem` throws (a quota error, say), the list on screen already holds the new item and a reload would lose it.
  - `JSON.stringify` followed by `JSON.parse` is taken to give the list back unchanged.
  - Start-up reads an `Option`. `None` means the key is absent or its text parses to a falsy value.
  - If the stored text is not valid JSON, `JSON.parse` throws in the code. Nothing catches that, and the model does not include the throw.
  - If the stored text parses to a truthy value that is not a list (`5`, `{}`), `itemList.slice` is not a function, so rendering the menu throws at `src/App.js:80` and the page does not appear. The model does not cover this, because `Option<seq<Item>>` holds only a list or nothing.
- The contents of the built-in default list are seed data: `Session.Start` takes the defaults as a parameter.
- `Number(...)` string parsing is not modelled. The price reaches the model as an `Option<int>`, with `None` for `NaN`. Fractional and infinite prices are not modelled.
- JavaScript numbers are doubles, but the model uses unbounded integers. Subtotals and totals above 2^53 would lose precision in the code, and the model does not capture that rounding.
- React's `useState` and its re-render and remount timing are not modelled. Each action replaces the whole state, and a remount is modelled only as closing the receipt.
- A discount, item deletion and resizing the counters when the list grows are not in the code, so none of them is modelled.

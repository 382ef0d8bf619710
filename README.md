# Quotation draft editor

This project models the quotation draft editor of the Quotation-Maker web
client, in `client/src/App.js`. The draft is the in-memory quotation a user
fills in. It holds a quotation number, a date, the fixed issuing company, the
client's name, address, phone and email, and an ordered list of line items.
Each line item has a description, a quantity, a price and a derived total.

The model has three modules:

- `JsText` (`js_text.dfy`) models the two JavaScript string operations the
  editor depends on. The first is `String.prototype.trim`, which strips
  ECMAScript white space and line terminators from both ends. The second is
  the decimal rendering of a non-negative integer, used by the
  `Quote-${n}` template literal.
- `Quotation` (`quotation.dfy`) holds the draft as datatypes and the pure
  rules over it. These cover the line total, the subtotal (a left fold over
  the row totals), the blank draft, appending a blank row, removing a row
  with the filter on positions, writing one client field, and the "some row
  has a description" test.
- `DraftEditor` (`draft_editor.dfy`) models the component's state cell
  (`formData`) as the class `QuotationEditor`. Each event handler is a method
  that replaces the draft. `Valid()` is the draft invariant: at least one
  row, and every row total equal to quantity × price. Every handler preserves
  it. `SaveQuotation` models the two-step check made before anything is sent,
  and the body that would be posted. `ExampleSession` uses only the methods'
  contracts to show a concrete session: two rows of 3 at 1500 each give a
  subtotal and grand total of 9000.

Quantities and prices are integers, for example amounts in cents. The random
draw behind the quotation number, the formatted date and the `createdAt`
timestamp are parameters.

The model follows the code in two places a reader might not expect:

- The save guard refuses a client name that is blank AFTER TRIMMING, not only
  an empty one. It likewise looks for a description that is non-blank after
  trimming.
- Quantities and prices are not required to be non-negative. The form's
  `min` attributes are browser hints, and the handler accepts any value.

## Model

| member | source | states |
|---|---|---|
| JsText.Trim | client/src/App.js:115-122 | trim's result is empty exactly when the input is all white space; otherwise it neither starts nor ends with white space |
| JsText.TrimIsInfix | client/src/App.js:115-122 | trim's result is a contiguous part of the input, and what it removes before and after is all white space |
| JsText.DecimalString | client/src/App.js:22 | `${n}` renders a non-negative integer as one or more decimal digits with no leading zero; 0 renders as exactly "0" |
| JsText.DecimalRoundTrip | client/src/App.js:22 | the number in `Quote-${n}` can be read back from its decimal digits |
| Quotation.QuoteNumber | client/src/App.js:22 | a quotation number is `Quote-` followed by decimal digits, for a draw below 10000 |
| Quotation.QuoteNumberInjective | client/src/App.js:22 | different draws give different quotation numbers |
| Quotation.InitialForm | client/src/App.js:21-37 | the initial draft has the given number and date, the fixed company, all four client fields "", and exactly one row `{"", 1, 0, 0}`; its totals are current, its subtotal is 0, its client name is blank and no row is described |
| Quotation.CalculateTotal | client/src/App.js:50-52 | a row total is quantity × price: never negative for non-negative inputs, zero when either input is zero, and equal to the price at quantity 1 |
| Quotation.Subtotal | client/src/App.js:54-56 | the subtotal is never negative when no row total is negative |
| Quotation.SubtotalAppend | client/src/App.js:54-56 | the subtotal of two concatenated row lists is the sum of their subtotals |
| Quotation.SubtotalReplace | client/src/App.js:66-78 | replacing one row changes the subtotal by exactly the difference between the new and old row totals |
| Quotation.SubtotalOfCurrentTotals | client/src/App.js:50-56 | when no row total is stale, the subtotal equals the sum of quantity × price over the rows |
| Quotation.AddBlankItem | client/src/App.js:80-88 | adding a row gives one more row, with the earlier rows unchanged and in order and the new last row `{"", 1, 0, 0}`; totals stay current and the subtotal is unchanged |
| Quotation.FilterIndex | client/src/App.js:92 | filtering by position drops exactly the row at `index` and keeps the others in order; an index outside the list drops nothing |
| Quotation.RemoveItemAt | client/src/App.js:90-95 | with one row, removal does nothing; with more, it removes exactly row `index` (nothing if out of range); from at least one row, at least one row remains |
| Quotation.RemoveItemAtKeepsTotals | client/src/App.js:90-95 | removing a row keeps every remaining row total current |
| Quotation.RemoveItemAtSubtotal | client/src/App.js:90-95 | removing row `index` lowers the subtotal by exactly that row's total |
| Quotation.WithClientField | client/src/App.js:97-102 | the named client field takes the new value and every other client field keeps its old value |
| Quotation.HasDescribedItem | client/src/App.js:121-123 | true exactly when some row's description is not blank after trimming |
| DraftEditor.QuotationEditor.constructor | client/src/App.js:21-41 | the editor opens on the initial draft for the drawn number and the date, and the draft invariant holds |
| DraftEditor.QuotationEditor.HandleItemChange | client/src/App.js:66-78 | only row `index` changes, and only in the edited field; after a quantity or price write, the row total is the new quantity × price; a description write keeps the total; the row count, the other rows and the non-item fields are unchanged; the subtotal moves by the row's change; the invariant is preserved |
| DraftEditor.QuotationEditor.AddItem | client/src/App.js:80-88 | the row list becomes `AddBlankItem` of the old list, everything else is unchanged, and the invariant is preserved |
| DraftEditor.QuotationEditor.RemoveItem | client/src/App.js:90-95 | the row list becomes `RemoveItemAt` of the old list, everything else is unchanged, and the invariant (at least one row) is preserved |
| DraftEditor.QuotationEditor.HandleClientChange | client/src/App.js:97-102 | only the named client field changes; the rows, company, number and date are unchanged, and the invariant is preserved |
| DraftEditor.QuotationEditor.ResetForm | client/src/App.js:104-110 | the draft becomes the initial draft with a fresh number and date, and the invariant holds |
| DraftEditor.QuotationEditor.SaveQuotation | client/src/App.js:112-135 | a blank client name is refused first; otherwise a draft with no described row is refused; the draft is sent exactly when both checks pass, and then the payload carries the draft unchanged, with subtotal = grand total = the sum of the row totals (= the sum of quantity × price under the invariant) |

## Left out

- The network request in `saveQuotation`, its 5-second timeout, the
  classification of connection errors, the notifications and their 3-second
  timer (`showNotification`), and the reset scheduled one second after a
  successful save. `SaveQuotation` stops at the decision and the body that
  would be posted; the delayed reset is `ResetForm` called by the caller.
- `downloadPDF`: it renders the preview with html2canvas and jsPDF, fits the
  image with floating-point aspect ratios, and guards re-entry with an async
  flag.
- Random number generation and `date-fns` formatting. The draw (an integer
  below 10000) and the formatted date are parameters.
- `Number(...)` coercion of the text typed into the quantity and price inputs,
  JavaScript floating-point arithmetic, and `toLocaleString` currency
  formatting. Quantities and prices are unbounded integers, so the model has
  no rounding and no overflow.
- DraftEditor.QuotationEditor.HandleItemChange: the handler copies the row
  array shallowly and writes into the shared row object. The model replaces
  the row by value, so it does not capture that the previous state's row
  object is mutated too.
- DraftEditor.QuotationEditor.HandleItemChange: requires an index of an
  existing row; the handler throws a TypeError for any other index, and the
  form only passes indices of rendered rows.
- DraftEditor.QuotationEditor.HandleItemChange: accepts only the description,
  quantity and price fields; the handler writes any property name into the
  row, but the form only passes those three.
- DraftEditor.QuotationEditor.HandleItemChange: the handler stores the text
  typed into the quantity and price inputs, so those row fields (and the
  payload's copies) are strings, and only `total` is numeric. The model keeps
  them as integers.
- DraftEditor.QuotationEditor.HandleClientChange: the handler accepts any
  property name; the model covers the four fields the form edits (name,
  address, phone, email).
- All JSX rendering of the form and the preview.
- The server (`server/index.js`). It consists of Express handlers over
  Mongoose queries whose behaviour is not visible here: the create-time
  uniqueness check, the case-insensitive search, ordering by creation time,
  and the health check.

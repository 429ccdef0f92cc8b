# Haraz invoice ledger

Haraz Invoice is a single-page invoicing app for a coffee shop. All of its state is one object
with four collections: customers, inventory items, invoices and payments. The app keeps the
object in browser storage, and its handlers change it in a few well-defined ways:

- a draft invoice is built line by line;
- an invoice is issued from the draft;
- payments are recorded against invoices;
- invoices are deleted, and their payments go with them;
- customers and items are added, edited and deleted;
- the whole state is restored from a backup or a cloud copy, or reset to the seed data.

Three views compute figures from the state:

- the dashboard (total sales, total paid, clamped credit, and sales per day for the last seven days);
- the reports page (the same sums with the credit left unclamped, and paid and credit per invoice);
- the payments tab (a customer's outstanding credit and the invoices still open for payment).

This project models that ledger as immutable Dafny datatypes and pure functions and proves what
each operation does:

- `State`: the records, the `Ledger`, the error outcomes, start-up loading with the per-collection
  seed defaults, and the consistency predicates.
- `Seqs`: filter, reduce-to-sum, find and JavaScript `splice(index, 1)`, with their lemmas.
- `Text`: trimming, ASCII case-insensitive name matching, and the PDF file-name sanitiser.
- `Reconcile`: paid amounts, credits, the customer's outstanding credit, the dashboard and
  reports totals, and the daily sales buckets.
- `Invoicing`: the draft (adding and removing lines, the running total) and invoice issue.
- `Store`: customer and item forms, the cascading invoice delete, recording a payment,
  restore and reset.
- `Scenarios`: worked runs with concrete amounts.

Operations that change the ledger return `Result<Ledger>`. An `Err` names the reason, and the
caller keeps the ledger it had. Amounts are `real`. A number that fails to parse is `None`.
Dialog answers, whether the export library loaded, invoice ids and dates are all parameters.

In these places the code does something a reader might not expect, and the model follows the code:

- saving a customer or item does not check that the name is unique;
- an item's price may be negative, and a line's quantity may be zero or negative;
- deleting an unknown invoice id succeeds and changes nothing;
- a new invoice id is not checked against existing ones;
- the payments tab matches customer names exactly, while auto-fill and auto-create ignore case;
- reset reloads the seed data rather than leaving the collections empty, although its dialog
  says all data is permanently deleted and cleared (index.js:935-937);
- a payment for an id that no invoice has fails. The code throws at that point, before it
  writes anything.

## Model

| member | source | states |
|---|---|---|
| State.LoadState | index.js:2-14 | Each collection comes from its own stored key. With nothing stored, the ledger has the two seed customers, the three seed items, and no invoices or payments. |
| State.LoadSavedState | index.js:90-95 | Loading what was saved gives back the same ledger. |
| Seqs.SpliceStart | index.js:270 | The start position of `splice(index, 1)`: a valid index is itself, a negative index counts back from the end, an index below minus the length starts at 0, and an index past the end removes nothing. |
| Seqs.RemoveAt | index.js:402 | Removing at the splice position shortens the sequence by one and shifts the later elements down. It is the identity when the position is past the end. |
| Seqs.RemoveAtMultiset | index.js:402 | A removal takes out exactly one element: the old multiset is the new one plus the removed element. |
| Seqs.RemoveAtSum | index.js:402-404 | A removal lowers any sum over the sequence by exactly the removed element's share. |
| Seqs.FindFirst | index.js:867 | Returns the first index that satisfies the predicate, or none exactly when no element does. |
| Text.Trim | index.js:354 | Strips whitespace at both ends. The result is empty exactly when the input is all whitespace; otherwise neither end is whitespace. |
| Text.TrimIsInfix | index.js:354 | The trimmed text is the input's own characters from where the leading whitespace ends, and everything before and after that slice is whitespace. |
| Text.TrimKeeps | index.js:354 | Text with no white space at either end is kept as typed. |
| Text.TrimIdempotent | index.js:416-417 | Trimming twice is the same as trimming once. |
| Text.SameNameByLetters | index.js:29 | Two names match ignoring case exactly when they have the same length and each pair of characters is equal or is a capital ASCII letter and its small letter. |
| Text.Lower | index.js:29 | Lowering keeps the length, turns each capital ASCII letter into its small letter and keeps every other character. |
| Text.ReplaceReserved | index.js:578 | Each reserved character (slash, backslash, `?`, `%`, `*`, colon, vertical bar, double quote, `<`, `>`) becomes `-`, every other character is kept, and the length does not change. |
| Text.SafeFileName | index.js:578 | The file-name part is "Customer" for an empty name. It is never empty and never holds a reserved character. Otherwise it has the name's length, each reserved character becomes `-` and every other character is kept in place, so a name without reserved characters is kept as it is (`generatePDFInvoice` would save "A/B" under "A-B"). |
| Text.SafeFileNameIdempotent | index.js:683 | Sanitising an already sanitised name changes nothing. |
| Text.PdfFileName | index.js:579 | The PDF name is the invoice id, `_`, exactly the sanitised customer name, and `.pdf`; nothing after the id is reserved. |
| Invoicing.AutoFillPrice | index.js:27-39 | A price is filled in exactly when some stored item's name matches the typed name ignoring case, and it is the price of the first such item. |
| Invoicing.AutoFillPhone | index.js:74-84 | A phone is filled in exactly when some stored customer's name matches ignoring case, and it is the phone of the first such customer. |
| Invoicing.AddItemIfNew | index.js:361-367 | Inventory is unchanged when an item matches the name ignoring case. Otherwise it gains one `{name, price}` entry at the end. |
| Invoicing.AddCustomerIfNew | index.js:429-436 | Customers are unchanged when one matches the name ignoring case. Otherwise one `{name, phone}` record is appended. |
| Invoicing.NewLine | index.js:369-374 | A new line keeps its name, quantity and price, and its subtotal is quantity times price. |
| Invoicing.AddInvoiceItem | index.js:353-374 | Fails exactly when the trimmed name is empty or the quantity or price did not parse. Otherwise the draft grows by one line at the end, whose subtotal is qty × price. The item is auto-added only when no item matches; customers, invoices and payments are unchanged. |
| Invoicing.AddItemRaisesTotal | index.js:369-382 | Adding a line keeps the subtotals consistent and raises the running total by qty × price. |
| Invoicing.RemoveInvoiceItem | index.js:401-405 | Splicing out a line leaves the ledger untouched. The draft becomes the lines before the position followed by the lines after it, in order, so exactly one line goes (none when the index is past the end), and the subtotals stay consistent. |
| Invoicing.RemoveItemLowersTotal | index.js:401-413 | Removing a line lowers the running total by exactly that line's subtotal. |
| Invoicing.CalculateInvoiceTotal | index.js:407-413 | An empty draft costs just the delivery charge, and lines without negative subtotals never bring the total below it. |
| Invoicing.DraftTotalFormula | index.js:407-413 | On a consistent draft, the total is the sum of qty × price over the lines plus the delivery charge. The charge is 0 when the field is empty or unparsable. |
| Invoicing.InvoiceCustomer | index.js:429-431 | The invoice's customer matches the typed name ignoring case. It is the first stored record that matches when one does, and otherwise a new record with the typed name and phone. |
| Invoicing.GenerateInvoice | index.js:415-452 | Fails, with nothing changed, exactly when the trimmed name or phone is empty, the draft is empty, or the export library is missing; the error follows the app's check order. On success exactly one invoice is appended with the given id and date, the draft lines, the delivery charge, the computed total and paid 0. A customer is added only when none matches ignoring case. Inventory and payments are unchanged, and the draft is cleared. |
| Invoicing.GeneratedTotalFormula | index.js:438-448 | A new invoice's total is the sum of qty × price over its lines plus delivery, so every stored total stays consistent with its lines. |
| Invoicing.GenerateKeepsReferences | index.js:439-452 | Issuing keeps every payment pointing at an existing invoice. Ids stay distinct when the new id is fresh, and a reused id breaks distinctness. |
| Invoicing.GenerateAddsToItsDay | index.js:162-166 | A new invoice raises the sales of its own date by its total and leaves every other day's sales unchanged. |
| Reconcile.PaidForAppend | index.js:699-701 | A new payment raises its invoice's paid amount by its amount and leaves every other invoice's paid amount unchanged. |
| Reconcile.PaidFor | index.js:699-701 | What is paid on an invoice is 0 when no payment names it. When every amount is positive it is never negative, and it is positive exactly when some payment names the invoice. |
| Reconcile.Credit | index.js:703 | The credit is the whole total while no payment names the invoice. With positive amounts it never exceeds the total, and it is below the total exactly when some payment names the invoice. |
| Reconcile.CustomerOutstanding | index.js:829-848 | A customer's outstanding credit is never negative, and it is positive exactly when one of their invoices (exact name match) still has a positive credit. |
| Reconcile.LoadCustomerInvoices | index.js:825-848 | Computes no view for an empty selection; the app returns early and leaves the previous view in place. Otherwise the outstanding credit is the sum, over the customer's invoices (exact name match), of each credit counted as 0 when not positive; it is never negative, and it is positive exactly when some invoice is offered. The offered ids are exactly those invoices with positive credit, in order. |
| Reconcile.ScanCredits | index.js:833-848 | The walk over a customer's invoices offers, in order, the ids of those with a positive credit, and adds up exactly those credits. |
| Reconcile.OutstandingIffOffered | index.js:841-842 | The summed positive credits are never negative, and they are positive exactly when some invoice has a positive credit. |
| Reconcile.OfferedInvoicesArePayable | index.js:841-846 | Every invoice offered for payment belongs to that customer and has a positive credit. |
| Reconcile.DashboardTotals | index.js:141-144 | Sales and paid are the sums of totals and amounts. Credit is never negative, and it is either 0 or sales minus paid, whichever is larger. |
| Reconcile.ReportTotals | index.js:688-691 | Sales and paid are the same sums, and credit is sales minus paid, which may be negative. |
| Reconcile.DashboardClampsReport | index.js:142-144 | The dashboard's credit equals the reports' credit when that is non-negative, and is 0 when more has been paid than sold. |
| Reconcile.PaymentsSplitAcrossInvoices | index.js:699-703 | With distinct ids and every payment naming an invoice, the per-invoice paid amounts add up to the total paid. |
| Reconcile.ReportCreditIsSumOfCredits | index.js:689-703 | On such a ledger, the reports' credit is the sum of the per-invoice credits in its table. |
| Reconcile.ClampedCreditsCoverDashboard | index.js:142-144 | On such a ledger, the per-invoice outstanding amounts (overpaid counted as 0) add up to at least the dashboard credit. |
| Reconcile.DailySales | index.js:162-166 | One bucket per given day, in the given order. Each bucket is the sum of totals of the invoices dated exactly that day. |
| Reconcile.EmptyDayIsZero | index.js:162-166 | A day with no invoices shows 0. |
| Reconcile.DailySalesCoverDays | index.js:156-166 | For distinct days, the buckets together add up to the sales dated on any of those days. |
| Store.SaveCustomer | index.js:253-266 | Fails exactly when the name or phone is empty, without trimming. Otherwise the record at the editing index is replaced, or a record is appended when not editing. Nothing else changes. |
| Store.DeleteCustomer | index.js:268-274 | Cancelled exactly when not confirmed. Otherwise the customers become those before the position followed by those after it, in order, and nothing else changes; invoices keep their copy of the customer. |
| Store.SaveItem | index.js:311-324 | Fails exactly when the name is empty or the price did not parse. Otherwise it edits in place or appends; nothing else changes. |
| Store.DeleteItem | index.js:326-332 | Cancelled exactly when not confirmed. Otherwise the items become those before the position followed by those after it, in order, and nothing else changes. |
| Store.DeleteInvoice | index.js:727-731 | Cancelled exactly when not confirmed. Otherwise no invoice and no payment with the id remains, every other invoice and payment is kept as many times as it occurred and nothing is invented, and customers and inventory are untouched. |
| Store.DeleteInvoiceKeepsOrder | index.js:730-731 | The kept invoices and payments stay in their original relative order. |
| Store.DeleteInvoiceIdempotent | index.js:730-731 | Deleting the same id a second time changes nothing. |
| Store.DeleteMissingInvoiceIsNoOp | index.js:730-731 | Deleting an id that nothing carries leaves the ledger as it was. |
| Store.DeleteInvoiceKeepsReferences | index.js:730-731 | After the cascade, every payment still names an existing invoice, and distinct ids stay distinct. |
| Store.DeleteInvoiceTotals | index.js:730-735 | Total sales drop by the totals of the removed invoices, and total paid drops by what was paid against the id. |
| Store.FindInvoice | index.js:867 | Finds an invoice exactly when one has the id, and it is the first invoice with that id. |
| Store.DueOn | index.js:867-871 | What is owed is unknown exactly when no invoice has the id. Otherwise it is the credit of the first invoice with that id. |
| Store.RecordPayment | index.js:860-881 | Invalid exactly when the id is empty or the amount is NaN or not positive. Unknown exactly when no invoice has the id. Cancelled exactly when the amount exceeds the credit and is not confirmed. Otherwise exactly one `{invoiceId, amount, date}` is appended and nothing else changes. |
| Store.RecordPaymentEffect | index.js:868-881 | A recorded payment raises its invoice's paid amount and the total paid by its amount, lowers that invoice's credit by the same, leaves other invoices' paid amounts alone, keeps references valid, and keeps every recorded amount positive. |
| Store.RestoreAsWritten | index.js:911-926 | The code as written: a document is accepted exactly when it is a value holding customers and invoices, and it becomes the whole state as it is. Otherwise the state is kept. A rejected value is invalid, and `null` is unreadable from a backup file but invalid from the cloud. |
| Store.RestoreAsWrittenAcceptsIncomplete | index.js:1098-1100 | From either origin, the as-written check accepts a document without inventory or payments. |
| Store.Restore | index.js:1098-1107 | Same acceptance test and errors. An accepted document replaces all four collections, and a missing inventory or payments becomes empty. |
| Store.RestoreRoundTrip | index.js:900-923 | Restoring a backup of a ledger gives that ledger back. On complete documents the corrected and the as-written restore agree. |
| Store.Reset | index.js:934-940 | Cancelled exactly when not confirmed. Otherwise the ledger is the start-up seed. |
| Scenarios.DraftTwo | index.js:353-374 | Adding two of an item at 5.50 to an empty draft gives one line with subtotal 11.00. |
| Scenarios.IssueTwelve | index.js:415-452 | Issuing that line with 1.00 delivery stores one invoice of 12.00, with 12.00 still owed. |
| Scenarios.PayInTwo | index.js:860-881 | On a 12.00 invoice, 8.00 is taken without confirmation and leaves 4.00 owed. Another 4.00 leaves 0. A further 1.00 is cancelled unless confirmed. |
| Scenarios.InvoiceLifecycle | index.js:353-452 | The whole run from an empty draft: two at 5.50 plus 1.00 delivery is 12.00, paying 8.00 leaves 4.00 owed, and paying 4.00 more leaves 0. |
| Scenarios.Overpayment | index.js:860-881 | Paying 15.00 on 10.00 needs confirmation. Once confirmed, the invoice's credit is -5.00 and the customer's outstanding credit is 0. |
| Scenarios.InvalidRestore | index.js:919-926 | A document holding only an inventory is rejected as invalid, and so is a number. `null` is unreadable in a backup file. |

## Left out

- Page rendering, navigation, modals, focus handling and Chart.js drawing: this is display code, and it computes none of the figures above.
- PDF and image export (jsPDF, html2canvas): these are foreign libraries. The model keeps only the library-loaded check as a parameter, and the file name.
- Browser storage reads and writes, backup download, file reading and page reload: this is I/O. Start-up loading is `State.LoadState`, a saved state is `State.ToSnapshot`, and reset is modelled as the seed state.
- GitHub cloud sync and email compose: network and browser APIs. Only the shape check of a fetched document is modelled, in `Store.Restore`.
- Invoice ids built from the clock, and dates from the locale: they are parameters, and the seven days of the chart are a parameter to `Reconcile.DailySales`.
- `confirm` and `alert` dialogs: a confirmation is a boolean parameter, and an alert is an `Err`.
- Number parsing (parseInt, parseFloat) is not modelled: the parsed value, or `None` for NaN, is an input.
- IEEE double rounding and `toFixed` formatting: amounts are exact reals. A sum that is 0.30000000000000004 in doubles, which the app displays rounded to two decimals, is 0.3 here.
- Text.Lower: `toLowerCase` is modelled for ASCII letters only; other scripts' case mappings are not modelled.
- Text.SameNameByLetters: inherits the ASCII-only case mapping of Text.Lower.
- `generatePDFInvoice` (index.js:468) has no caller in index.js; its file-name sanitiser is modelled as a pure function (Text.SafeFileName, Text.PdfFileName), and the PDF drawing is not modelled.
- Text.Trim: strips the ECMAScript whitespace and line-terminator code points, but lone UTF-16 surrogates cannot appear in a Dafny string.
- Store.SaveCustomer: requires the editing index to be below the collection's length. In the app, a write past the end leaves holes in the array, and the forms never do that.
- Store.SaveItem: the same restriction on the editing index.
- JSON values of the wrong shape, for example a `customers` key that is not an array, are not modelled: a document is modelled only by which keys are present.
- sw.js, the service-worker cache: I/O only.

## Findings

| source | as written | input that shows it | evidently intended | confidence | as-written member | corrected member |
|---|---|---|---|---|---|---|
| index.js:919-920, 1098-1099 | A restored or fetched document is accepted when it has `customers` and `invoices`, and it then becomes the whole state even if `inventory` or `payments` is missing. A backup restore saves that state and reloads, and the stored "undefined" no longer parses at start-up. A cloud load renders at once, and for this input the dashboard's sum over the missing payments throws (index.js:143). | `{"customers": [], "invoices": []}` | A document with customers and invoices restores a working ledger, with any missing collection empty | not executed | Store.RestoreAsWritten, Store.RestoreAsWrittenAcceptsIncomplete | Store.Restore |

/** The ledger's data model: the four collections the app keeps in one `state` object,
    the records in them, the error outcomes of its operations, and how the state is read
    back from storage with per-collection seed defaults. */
module State {
  import opened Seqs

  datatype Customer = Customer(name: string, phone: string)

  datatype Item = Item(name: string, price: real)

  /** One invoice line; `subtotal` is stored beside the quantity and price it came from. */
  datatype Line = Line(name: string, qty: int, price: real, subtotal: real)

  /** `customer` is a copy of the customer record at creation time, not a reference that later
      edits would reach; `paid` is written as 0 and never updated. */
  datatype Invoice = Invoice(
    id: string,
    date: string,
    customer: Customer,
    items: seq<Line>,
    delivery: real,
    total: real,
    paid: real)

  datatype Payment = Payment(invoiceId: string, amount: real, date: string)

  datatype Ledger = Ledger(
    customers: seq<Customer>,
    inventory: seq<Item>,
    invoices: seq<Invoice>,
    payments: seq<Payment>)

  /** Why an operation left the state as it was. */
  datatype Error =
    | MissingItemFields      // draft line without a name, a quantity or a price
    | MissingCustomerFields  // invoice without a customer name or phone
    | EmptyDraft             // invoice without lines
    | ExporterUnavailable    // the image-export library is not loaded
    | MissingFields          // customer or item form left incomplete
    | InvalidPayment         // no invoice selected, or an amount that is not a positive number
    | UnknownInvoice         // a payment for an id no invoice has
    | Cancelled              // the user declined a confirmation
    | InvalidSnapshot        // a restore document without customers or invoices
    | Unreadable             // a restore document that does not parse, or a backup file holding null

  /** Every `Err` leaves the ledger untouched: the caller keeps the state it had. */
  datatype Result<+T> = Ok(value: T) | Err(error: Error)

  /** A parsed state document (stored, backed up or fetched): each key may be absent. */
  datatype Snapshot = Snapshot(
    customers: Option<seq<Customer>>,
    inventory: Option<seq<Item>>,
    invoices: Option<seq<Invoice>>,
    payments: Option<seq<Payment>>)

  const SeedCustomers: seq<Customer> :=
    [Customer("John Doe", "555-0101"), Customer("Jane Smith", "555-0202")]

  const SeedInventory: seq<Item> :=
    [Item("Haraz Latte", 5.50), Item("Espresso", 3.00), Item("Mocha", 6.00)]

  const NothingStored := Snapshot(None, None, None, None)

  /** Start-up: each collection is read from its own storage key and falls back to its seed
      (two customers, three items, no invoices, no payments) when that key holds nothing. */
  function LoadState(stored: Snapshot): (l: Ledger)
    ensures stored.customers.Some? ==> l.customers == stored.customers.value
    ensures stored.customers.None? ==> l.customers == SeedCustomers
    ensures stored.inventory.Some? ==> l.inventory == stored.inventory.value
    ensures stored.inventory.None? ==> l.inventory == SeedInventory
    ensures stored.invoices.Some? ==> l.invoices == stored.invoices.value
    ensures stored.invoices.None? ==> l.invoices == []
    ensures stored.payments.Some? ==> l.payments == stored.payments.value
    ensures stored.payments.None? ==> l.payments == []
  {
    Ledger(
      stored.customers.GetOr(SeedCustomers),
      stored.inventory.GetOr(SeedInventory),
      stored.invoices.GetOr([]),
      stored.payments.GetOr([]))
  }

  /** The document `saveState` and the backup write: all four keys present. */
  function ToSnapshot(l: Ledger): Snapshot
  {
    Snapshot(Some(l.customers), Some(l.inventory), Some(l.invoices), Some(l.payments))
  }

  /** Reading back what was saved gives the same ledger. */
  lemma LoadSavedState(l: Ledger)
    ensures LoadState(ToSnapshot(l)) == l
  {
  }

  /** The value of a line computed from its quantity and price. */
  function LineValue(line: Line): real
  {
    line.qty as real * line.price
  }

  function SubtotalOf(line: Line): real
  {
    line.subtotal
  }

  /** Every line's stored subtotal is its quantity times its price. */
  predicate LinesConsistent(lines: seq<Line>)
  {
    forall k :: 0 <= k < |lines| ==> lines[k].subtotal == LineValue(lines[k])
  }

  /** Every invoice's total is the value of its lines plus its delivery charge. */
  predicate TotalsConsistent(invoices: seq<Invoice>)
  {
    forall k :: 0 <= k < |invoices| ==>
      invoices[k].total == Sum(invoices[k].items, LineValue) + invoices[k].delivery
  }

  function Ids(invoices: seq<Invoice>): (r: seq<string>)
    ensures |r| == |invoices|
    ensures forall k :: 0 <= k < |invoices| ==> r[k] == invoices[k].id
  {
    seq(|invoices|, k requires 0 <= k < |invoices| => invoices[k].id)
  }

  /** No two invoices share an id. */
  predicate DistinctIds(invoices: seq<Invoice>)
  {
    forall i, j :: 0 <= i < j < |invoices| ==> invoices[i].id != invoices[j].id
  }

  /** Every recorded amount is a positive number, as the payment form demands. */
  predicate AmountsPositive(payments: seq<Payment>)
  {
    forall k :: 0 <= k < |payments| ==> payments[k].amount > 0.0
  }

  /** Every payment names an invoice that exists. */
  predicate PaymentsReferenceInvoices(l: Ledger)
  {
    forall k :: 0 <= k < |l.payments| ==> l.payments[k].invoiceId in Ids(l.invoices)
  }
}

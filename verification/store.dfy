/** The ledger's mutations outside invoice authoring: saving and deleting customers and items
    by table index, deleting an invoice with its payments, recording a payment, restoring a
    backup and resetting. Every mutation is a function from the ledger to a `Result`; an `Err`
    means the app returned before touching `state`. Confirmation dialogs are the
    `confirmed` arguments. */
module Store {
  import opened Seqs
  import opened State
  import opened Reconcile

  /** The save button of the customer form: both fields must be non-empty (as typed, not
      trimmed); an edit replaces the record at its index, an add appends. Names are not
      checked for uniqueness. Nothing but the customer list changes. */
  function SaveCustomer(l: Ledger, editing: int, name: string, phone: string): (r: Result<Ledger>)
    requires editing < |l.customers|
    ensures r.Err? <==> name == "" || phone == ""
    ensures r.Err? ==> r.error == MissingFields
    ensures r.Ok? && editing >= 0 ==>
      && |r.value.customers| == |l.customers|
      && r.value.customers[editing] == Customer(name, phone)
      && forall k :: 0 <= k < |l.customers| && k != editing ==> r.value.customers[k] == l.customers[k]
    ensures r.Ok? && editing < 0 ==> r.value.customers == l.customers + [Customer(name, phone)]
    ensures r.Ok? ==> r.value.inventory == l.inventory && r.value.invoices == l.invoices && r.value.payments == l.payments
  {
    if name == "" || phone == "" then Err(MissingFields)
    else if editing >= 0 then Ok(l.(customers := l.customers[editing := Customer(name, phone)]))
    else Ok(l.(customers := l.customers + [Customer(name, phone)]))
  }

  /** `deleteCustomer`: splices the row out after confirmation, keeping the order of the rest. Invoices keep their own copy of
      the customer, so nothing else changes. */
  function DeleteCustomer(l: Ledger, index: int, confirmed: bool): (r: Result<Ledger>)
    ensures r.Err? <==> !confirmed
    ensures r.Err? ==> r.error == Cancelled
    ensures r.Ok? && SpliceStart(|l.customers|, index) < |l.customers| ==>
      multiset(r.value.customers) + multiset{l.customers[SpliceStart(|l.customers|, index)]} == multiset(l.customers)
    ensures var i := SpliceStart(|l.customers|, index);
      r.Ok? && i < |l.customers| ==> r.value.customers == l.customers[..i] + l.customers[i + 1..]
    ensures r.Ok? && SpliceStart(|l.customers|, index) == |l.customers| ==> r.value.customers == l.customers
    ensures r.Ok? ==> r.value.inventory == l.inventory && r.value.invoices == l.invoices && r.value.payments == l.payments
  {
    RemoveAtMultiset(l.customers, index);
    if !confirmed then Err(Cancelled) else Ok(l.(customers := RemoveAt(l.customers, index)))
  }

  /** The save button of the item form: a non-empty name and a parsed price (any number,
      negative included); edit in place or append. Stored invoices are untouched, so their lines
      and totals keep the prices they were issued with. */
  function SaveItem(l: Ledger, editing: int, name: string, price: Option<real>): (r: Result<Ledger>)
    requires editing < |l.inventory|
    ensures r.Err? <==> name == "" || price.None?
    ensures r.Err? ==> r.error == MissingFields
    ensures r.Ok? && editing >= 0 ==>
      && |r.value.inventory| == |l.inventory|
      && r.value.inventory[editing] == Item(name, price.value)
      && forall k :: 0 <= k < |l.inventory| && k != editing ==> r.value.inventory[k] == l.inventory[k]
    ensures r.Ok? && editing < 0 ==> r.value.inventory == l.inventory + [Item(name, price.value)]
    ensures r.Ok? ==> r.value.customers == l.customers && r.value.invoices == l.invoices && r.value.payments == l.payments
  {
    if name == "" || price.None? then Err(MissingFields)
    else if editing >= 0 then Ok(l.(inventory := l.inventory[editing := Item(name, price.value)]))
    else Ok(l.(inventory := l.inventory + [Item(name, price.value)]))
  }

  /** `deleteInventory`: splices the row out after confirmation, keeping the order of the rest;
      nothing else changes. */
  function DeleteItem(l: Ledger, index: int, confirmed: bool): (r: Result<Ledger>)
    ensures r.Err? <==> !confirmed
    ensures r.Err? ==> r.error == Cancelled
    ensures r.Ok? && SpliceStart(|l.inventory|, index) < |l.inventory| ==>
      multiset(r.value.inventory) + multiset{l.inventory[SpliceStart(|l.inventory|, index)]} == multiset(l.inventory)
    ensures var i := SpliceStart(|l.inventory|, index);
      r.Ok? && i < |l.inventory| ==> r.value.inventory == l.inventory[..i] + l.inventory[i + 1..]
    ensures r.Ok? && SpliceStart(|l.inventory|, index) == |l.inventory| ==> r.value.inventory == l.inventory
    ensures r.Ok? ==> r.value.customers == l.customers && r.value.invoices == l.invoices && r.value.payments == l.payments
  {
    RemoveAtMultiset(l.inventory, index);
    if !confirmed then Err(Cancelled) else Ok(l.(inventory := RemoveAt(l.inventory, index)))
  }

  function NotId(id: string): Invoice -> bool
  {
    (inv: Invoice) => inv.id != id
  }

  function HasId(id: string): Invoice -> bool
  {
    (inv: Invoice) => inv.id == id
  }

  /** `deleteInvoice`: after confirmation removes every invoice with that id and, in the same
      step, every payment naming it. Everything else is kept, each row as many times as it
      occurred, and customers and inventory are untouched. A missing id is not an error:
      nothing is removed. */
  function DeleteInvoice(l: Ledger, id: string, confirmed: bool): (r: Result<Ledger>)
    ensures r.Err? <==> !confirmed
    ensures r.Err? ==> r.error == Cancelled
    ensures r.Ok? ==> forall k :: 0 <= k < |r.value.invoices| ==> r.value.invoices[k].id != id
    ensures r.Ok? ==> forall k :: 0 <= k < |r.value.payments| ==> r.value.payments[k].invoiceId != id
    ensures r.Ok? ==> forall k :: 0 <= k < |l.invoices| && l.invoices[k].id != id ==> l.invoices[k] in r.value.invoices
    ensures r.Ok? ==> forall k :: 0 <= k < |l.payments| && l.payments[k].invoiceId != id ==> l.payments[k] in r.value.payments
    ensures r.Ok? ==> forall k :: 0 <= k < |r.value.invoices| ==> r.value.invoices[k] in l.invoices
    ensures r.Ok? ==> forall k :: 0 <= k < |r.value.payments| ==> r.value.payments[k] in l.payments
    ensures r.Ok? ==> forall inv :: multiset(r.value.invoices)[inv] == if inv.id == id then 0 else multiset(l.invoices)[inv]
    ensures r.Ok? ==> forall p :: multiset(r.value.payments)[p] == if p.invoiceId == id then 0 else multiset(l.payments)[p]
    ensures r.Ok? ==> r.value.customers == l.customers && r.value.inventory == l.inventory
  {
    FilterMembers(l.invoices, NotId(id));
    FilterMembers(l.payments, NotPaidTo(id));
    FilterMultiset(l.invoices, NotId(id));
    FilterMultiset(l.payments, NotPaidTo(id));
    if !confirmed then Err(Cancelled)
    else Ok(l.(invoices := Filter(l.invoices, NotId(id)), payments := Filter(l.payments, NotPaidTo(id))))
  }

  /** The kept invoices and payments stay in their original relative order: deleting from a
      ledger whose collections are split in two is deleting from each part. */
  lemma DeleteInvoiceKeepsOrder(l: Ledger, id: string, a: seq<Invoice>, b: seq<Invoice>, p: seq<Payment>, q: seq<Payment>)
    requires l.invoices == a + b && l.payments == p + q
    ensures DeleteInvoice(l, id, true).value.invoices == Filter(a, NotId(id)) + Filter(b, NotId(id))
    ensures DeleteInvoice(l, id, true).value.payments == Filter(p, NotPaidTo(id)) + Filter(q, NotPaidTo(id))
  {
    FilterConcat(a, b, NotId(id));
    FilterConcat(p, q, NotPaidTo(id));
  }

  /** Deleting the same invoice twice changes nothing the second time. */
  lemma DeleteInvoiceIdempotent(l: Ledger, id: string)
    ensures DeleteInvoice(DeleteInvoice(l, id, true).value, id, true) == DeleteInvoice(l, id, true)
  {
    FilterIdempotent(l.invoices, NotId(id));
    FilterIdempotent(l.payments, NotPaidTo(id));
  }

  /** Deleting an id no invoice or payment carries leaves the ledger as it was. */
  lemma DeleteMissingInvoiceIsNoOp(l: Ledger, id: string)
    requires forall k :: 0 <= k < |l.invoices| ==> l.invoices[k].id != id
    requires forall k :: 0 <= k < |l.payments| ==> l.payments[k].invoiceId != id
    ensures DeleteInvoice(l, id, true) == Ok(l)
  {
    FilterKeepsAll(l.invoices, NotId(id));
    FilterKeepsAll(l.payments, NotPaidTo(id));
  }

  /** The cascade never leaves a payment without its invoice: references stay valid, and ids
      that were distinct stay distinct. */
  lemma DeleteInvoiceKeepsReferences(l: Ledger, id: string)
    requires PaymentsReferenceInvoices(l)
    ensures PaymentsReferenceInvoices(DeleteInvoice(l, id, true).value)
    ensures DistinctIds(l.invoices) ==> DistinctIds(DeleteInvoice(l, id, true).value.invoices)
  {
    FilterKeepsReferences(l, id);
    if DistinctIds(l.invoices) {
      FilterKeepsDistinct(l.invoices, NotId(id));
    }
  }

  /** The two filters of the cascade, applied together, keep every payment's invoice. */
  lemma FilterKeepsReferences(l: Ledger, id: string)
    requires PaymentsReferenceInvoices(l)
    ensures PaymentsReferenceInvoices(l.(invoices := Filter(l.invoices, NotId(id)), payments := Filter(l.payments, NotPaidTo(id))))
  {
    var l' := l.(invoices := Filter(l.invoices, NotId(id)), payments := Filter(l.payments, NotPaidTo(id)));
    FilterMembers(l.payments, NotPaidTo(id));
    FilterMembers(l.invoices, NotId(id));
    forall k | 0 <= k < |l'.payments|
      ensures l'.payments[k].invoiceId in Ids(l'.invoices)
    {
      var p := l'.payments[k];
      var j :| 0 <= j < |l.payments| && l.payments[j] == p;
      var i :| 0 <= i < |l.invoices| && Ids(l.invoices)[i] == p.invoiceId;
      var inv := l.invoices[i];
      assert inv in l'.invoices;
      var m :| 0 <= m < |l'.invoices| && l'.invoices[m] == inv;
      assert Ids(l'.invoices)[m] == p.invoiceId;
    }
  }

  lemma {:induction false} FilterKeepsDistinct(invoices: seq<Invoice>, keep: Invoice -> bool)
    requires DistinctIds(invoices)
    ensures DistinctIds(Filter(invoices, keep))
  {
    if |invoices| > 0 {
      FilterKeepsDistinct(invoices[1..], keep);
      FilterMembers(invoices[1..], keep);
      var tail := Filter(invoices[1..], keep);
      forall k | 0 <= k < |tail|
        ensures tail[k].id != invoices[0].id
      {
        var j :| 0 <= j < |invoices[1..]| && invoices[1..][j] == tail[k];
        assert invoices[j + 1] == tail[k];
      }
    }
  }

  /** The sales and payment totals drop by exactly what carried the deleted id. */
  lemma DeleteInvoiceTotals(l: Ledger, id: string)
    ensures var l' := DeleteInvoice(l, id, true).value;
      && TotalSale(l'.invoices) == TotalSale(l.invoices) - Sum(Filter(l.invoices, HasId(id)), TotalOf)
      && TotalPaid(l'.payments) == TotalPaid(l.payments) - PaidFor(l.payments, id)
  {
    SumPartition(l.invoices, HasId(id), NotId(id), TotalOf);
    SumPartition(l.payments, PaidTo(id), NotPaidTo(id), AmountOf);
  }

  /** The first invoice with exactly that id, if any. */
  function FindInvoice(invoices: seq<Invoice>, id: string): (r: Option<Invoice>)
    ensures r.None? <==> id !in Ids(invoices)
    ensures r.Some? ==> exists k ::
      && 0 <= k < |invoices| && invoices[k] == r.value
      && forall j :: 0 <= j < k ==> invoices[j].id != id
    ensures r.Some? ==> r.value.id == id
  {
    match FindFirst(invoices, HasId(id))
    case Some(k) => Some(invoices[k])
    case None => None
  }

  /** What is still owed on the invoice a payment is for, as `processPayment` computes it:
      nothing when no invoice has the id, otherwise the credit of the first invoice that has it. */
  function DueOn(l: Ledger, id: string): (due: Option<real>)
    ensures due.None? <==> id !in Ids(l.invoices)
    ensures due.Some? ==> exists k ::
      && 0 <= k < |l.invoices| && l.invoices[k].id == id && due.value == Credit(l, l.invoices[k])
      && forall j :: 0 <= j < k ==> l.invoices[j].id != id
  {
    match FindInvoice(l.invoices, id)
    case Some(inv) => Some(Credit(l, inv))
    case None => None
  }

  /** Whether a payment would exceed what is owed: the check the caller answers with a confirm. */
  predicate WouldOverpay(l: Ledger, id: string, amount: real)
  {
    DueOn(l, id).Some? && amount > DueOn(l, id).value
  }

  /** `processPayment`: rejects an empty invoice id or an amount that is NaN or not positive; an
      id no invoice has fails without writing anything (the app throws there); an amount
      above what is owed needs confirmation. On success exactly one payment is appended and
      nothing else changes. */
  function RecordPayment(l: Ledger, invoiceId: string, amount: Option<real>, confirmed: bool, date: string): (r: Result<Ledger>)
    ensures r.Err? && r.error == InvalidPayment <==> invoiceId == "" || amount.None? || amount.value <= 0.0
    ensures r.Err? && r.error == UnknownInvoice <==>
      invoiceId != "" && amount.Some? && amount.value > 0.0 && invoiceId !in Ids(l.invoices)
    ensures r.Err? && r.error == Cancelled <==>
      invoiceId != "" && amount.Some? && amount.value > 0.0 && WouldOverpay(l, invoiceId, amount.value) && !confirmed
    ensures r.Ok? <==>
      invoiceId != "" && amount.Some? && amount.value > 0.0 && invoiceId in Ids(l.invoices)
      && (!WouldOverpay(l, invoiceId, amount.value) || confirmed)
    ensures r.Ok? ==> r.value.payments == l.payments + [Payment(invoiceId, amount.value, date)]
    ensures r.Ok? ==> r.value.customers == l.customers && r.value.inventory == l.inventory && r.value.invoices == l.invoices
  {
    if invoiceId == "" || amount.None? || amount.value <= 0.0 then Err(InvalidPayment)
    else match DueOn(l, invoiceId)
      case None => Err(UnknownInvoice)
      case Some(credit) =>
        if amount.value > credit && !confirmed then Err(Cancelled)
        else Ok(l.(payments := l.payments + [Payment(invoiceId, amount.value, date)]))
  }

  /** A recorded payment adds its amount to what is paid on its invoice and to the total paid,
      lowering that invoice's credit by the amount; no other invoice's paid amount moves,
      payments keep naming existing invoices, and every recorded amount stays positive. */
  lemma RecordPaymentEffect(l: Ledger, invoiceId: string, amount: Option<real>, confirmed: bool, date: string)
    requires RecordPayment(l, invoiceId, amount, confirmed, date).Ok?
    ensures var l' := RecordPayment(l, invoiceId, amount, confirmed, date).value;
      && PaidFor(l'.payments, invoiceId) == PaidFor(l.payments, invoiceId) + amount.value
      && (forall inv :: inv in l.invoices && inv.id == invoiceId ==> Credit(l', inv) == Credit(l, inv) - amount.value)
      && (forall other :: other != invoiceId ==> PaidFor(l'.payments, other) == PaidFor(l.payments, other))
      && TotalPaid(l'.payments) == TotalPaid(l.payments) + amount.value
      && (PaymentsReferenceInvoices(l) ==> PaymentsReferenceInvoices(l'))
      && (AmountsPositive(l.payments) ==> AmountsPositive(l'.payments))
  {
    var p := Payment(invoiceId, amount.value, date);
    var l' := RecordPayment(l, invoiceId, amount, confirmed, date).value;
    PaidForAppend(l.payments, p, invoiceId);
    forall other | other != invoiceId
      ensures PaidFor(l'.payments, other) == PaidFor(l.payments, other)
    {
      PaidForAppend(l.payments, p, other);
    }
    SumConcat(l.payments, [p], AmountOf);
  }

  /** Where a whole-state document comes from: a backup file the user picked, or the cloud copy. */
  datatype Origin = BackupFile | Cloud

  /** A document as `JSON.parse` or `response.json()` leaves it. Any value other than `null`
      is read by its keys: a number, string or array has none of the four. */
  datatype Document = NotJson | Null | Value(keys: Snapshot)

  /** A document is accepted when it is a value holding customers and invoices. */
  predicate Restorable(doc: Document)
  {
    doc.Value? && doc.keys.customers.Some? && doc.keys.invoices.Some?
  }

  predicate Complete(doc: Snapshot)
  {
    doc.customers.Some? && doc.inventory.Some? && doc.invoices.Some? && doc.payments.Some?
  }

  /** The error a rejected document gets. Text that does not parse is unreadable. A backup file
      holding `null` is too, since reading a key of `null` throws inside the parse handler, while
      the cloud load tests for `null` first and calls it an invalid format. Every other rejected
      value lacks customers or invoices. */
  function RejectionOf(origin: Origin, doc: Document): Error
  {
    match doc
    case NotJson => Unreadable
    case Null => if origin == BackupFile then Unreadable else InvalidSnapshot
    case Value(_) => InvalidSnapshot
  }

  /** `restoreDatabase` and `loadFromCloud` as written: the document becomes the whole state
      once customers and invoices are present, whatever else it lacks. */
  function RestoreAsWritten(origin: Origin, doc: Document): (r: Result<Snapshot>)
    ensures r.Ok? <==> Restorable(doc)
    ensures r.Ok? ==> r.value == doc.keys
    ensures r.Err? ==> r.error == RejectionOf(origin, doc)
    ensures r.Err? && doc.Value? ==> r.error == InvalidSnapshot
    ensures r.Err? && doc.Null? ==> (r.error == Unreadable <==> origin == BackupFile)
  {
    match doc
    case NotJson => Err(Unreadable)
    case Null => if origin == BackupFile then Err(Unreadable) else Err(InvalidSnapshot)
    case Value(keys) =>
      if keys.customers.Some? && keys.invoices.Some? then Ok(keys) else Err(InvalidSnapshot)
  }

  /** The as-written restore accepts a document without inventory or payments, from either
      origin, leaving the app a state with those collections missing. */
  lemma RestoreAsWrittenAcceptsIncomplete(origin: Origin)
    ensures var doc := Snapshot(Some([]), None, Some([]), None);
      RestoreAsWritten(origin, Value(doc)).Ok? && !Complete(RestoreAsWritten(origin, Value(doc)).value)
  {
  }

  /** Restore, with a document lacking inventory or payments read as having none of them: the
      acceptance test and the errors are the app's, and an accepted document replaces all four
      collections at once, never merging with the current state. */
  function Restore(origin: Origin, doc: Document): (r: Result<Ledger>)
    ensures r.Ok? <==> Restorable(doc)
    ensures r.Err? ==> r.error == RejectionOf(origin, doc)
    ensures r.Ok? ==> r.value.customers == doc.keys.customers.value && r.value.invoices == doc.keys.invoices.value
    ensures r.Ok? ==> r.value.inventory == doc.keys.inventory.GetOr([]) && r.value.payments == doc.keys.payments.GetOr([])
  {
    match RestoreAsWritten(origin, doc)
    case Err(e) => Err(e)
    case Ok(s) => Ok(Ledger(s.customers.value, s.inventory.GetOr([]), s.invoices.value, s.payments.GetOr([])))
  }

  /** Restoring a backup of a ledger gives back that ledger; on complete documents the corrected
      restore and the as-written one agree. */
  lemma RestoreRoundTrip(origin: Origin, l: Ledger, doc: Snapshot)
    ensures Restore(origin, Value(ToSnapshot(l))) == Ok(l)
    ensures Complete(doc) ==> Restore(origin, Value(doc)) == Ok(LoadState(RestoreAsWritten(origin, Value(doc)).value))
  {
  }

  /** `resetDatabase`: after confirmation storage is cleared and the page reloads, so the state
      is the start-up seed: the two sample customers, the three sample items, no invoices and
      no payments. */
  function Reset(confirmed: bool): (r: Result<Ledger>)
    ensures r.Err? <==> !confirmed
    ensures r.Err? ==> r.error == Cancelled
    ensures r.Ok? ==> r.value.customers == SeedCustomers && r.value.inventory == SeedInventory
    ensures r.Ok? ==> r.value.invoices == [] && r.value.payments == []
  {
    if confirmed then Ok(LoadState(NothingStored)) else Err(Cancelled)
  }
}

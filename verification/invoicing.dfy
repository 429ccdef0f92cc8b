/** Building an invoice: the draft lines held by the invoice form, the running total it shows,
    and `generateInvoice`, which turns the draft into a stored invoice. The form's typed values
    arrive as parameters: text as typed, numbers as already parsed (`None` where `parseInt` or
    `parseFloat` gave NaN), the clock's id and date, and whether the export library loaded. */
module Invoicing {
  import opened Seqs
  import opened Text
  import opened State
  import opened Reconcile

  /** The ledger together with the unsaved draft lines of the invoice form. */
  datatype Session = Session(ledger: Ledger, draft: seq<Line>)

  function NamedItem(name: string): Item -> bool
  {
    (i: Item) => SameName(i.name, name)
  }

  function NamedCustomer(name: string): Customer -> bool
  {
    (c: Customer) => SameName(c.name, name)
  }

  predicate HasItem(inventory: seq<Item>, name: string)
  {
    exists k :: 0 <= k < |inventory| && SameName(inventory[k].name, name)
  }

  predicate HasCustomer(customers: seq<Customer>, name: string)
  {
    exists k :: 0 <= k < |customers| && SameName(customers[k].name, name)
  }

  /** The price the form fills in when the typed item name matches a stored item ignoring case:
      the first such item's price. */
  function AutoFillPrice(inventory: seq<Item>, typed: string): (r: Option<real>)
    ensures r.None? <==> !HasItem(inventory, typed)
    ensures r.Some? ==> exists k ::
      && 0 <= k < |inventory| && SameName(inventory[k].name, typed) && inventory[k].price == r.value
      && forall j :: 0 <= j < k ==> !SameName(inventory[j].name, typed)
  {
    match FindFirst(inventory, NamedItem(typed))
    case Some(k) => Some(inventory[k].price)
    case None => None
  }

  /** The phone the form fills in for a typed customer name, found the same way. */
  function AutoFillPhone(customers: seq<Customer>, typed: string): (r: Option<string>)
    ensures r.None? <==> !HasCustomer(customers, typed)
    ensures r.Some? ==> exists k ::
      && 0 <= k < |customers| && SameName(customers[k].name, typed) && customers[k].phone == r.value
      && forall j :: 0 <= j < k ==> !SameName(customers[j].name, typed)
  {
    match FindFirst(customers, NamedCustomer(typed))
    case Some(k) => Some(customers[k].phone)
    case None => None
  }

  /** The inventory after an invoice line names an item: unchanged when a stored item has that
      name ignoring case, otherwise extended by one item at the typed price. */
  function AddItemIfNew(inventory: seq<Item>, name: string, price: real): (r: seq<Item>)
    ensures HasItem(inventory, name) ==> r == inventory
    ensures !HasItem(inventory, name) ==> r == inventory + [Item(name, price)]
  {
    if FindFirst(inventory, NamedItem(name)).None? then inventory + [Item(name, price)] else inventory
  }

  /** The customers after an invoice names a customer: unchanged when a stored customer has that
      name ignoring case, otherwise extended by one record with the typed name and phone. */
  function AddCustomerIfNew(customers: seq<Customer>, name: string, phone: string): (r: seq<Customer>)
    ensures HasCustomer(customers, name) ==> r == customers
    ensures !HasCustomer(customers, name) ==> r == customers + [Customer(name, phone)]
  {
    if FindFirst(customers, NamedCustomer(name)).None? then customers + [Customer(name, phone)] else customers
  }

  /** A draft line as `addInvoiceItem` builds it, its subtotal computed once from qty and price. */
  function NewLine(name: string, qty: int, price: real): (line: Line)
    ensures line.name == name && line.qty == qty && line.price == price
    ensures line.subtotal == LineValue(line)
  {
    Line(name, qty, price, qty as real * price)
  }

  /** `addInvoiceItem`: rejects a blank name or an unparsed quantity or price; otherwise appends
      one line whose subtotal is quantity times price, and first stores the item in the inventory
      when no stored item has that name ignoring case. Nothing else changes. */
  function AddInvoiceItem(s: Session, rawName: string, qty: Option<int>, price: Option<real>): (r: Result<Session>)
    ensures r.Err? <==> Trim(rawName) == "" || qty.None? || price.None?
    ensures r.Err? ==> r.error == MissingItemFields
    ensures r.Ok? ==>
      && |r.value.draft| == |s.draft| + 1
      && r.value.draft[..|s.draft|] == s.draft
      && r.value.draft[|s.draft|].name == Trim(rawName)
      && r.value.draft[|s.draft|].qty == qty.value
      && r.value.draft[|s.draft|].price == price.value
      && r.value.draft[|s.draft|].subtotal == LineValue(r.value.draft[|s.draft|])
    ensures r.Ok? ==> HasItem(s.ledger.inventory, Trim(rawName)) ==> r.value.ledger.inventory == s.ledger.inventory
    ensures r.Ok? ==> !HasItem(s.ledger.inventory, Trim(rawName)) ==> r.value.ledger.inventory == s.ledger.inventory + [Item(Trim(rawName), price.value)]
    ensures r.Ok? ==> r.value.ledger.customers == s.ledger.customers
    ensures r.Ok? ==> r.value.ledger.invoices == s.ledger.invoices && r.value.ledger.payments == s.ledger.payments
  {
    var name := Trim(rawName);
    if name == "" || qty.None? || price.None? then Err(MissingItemFields)
    else
      var inventory := AddItemIfNew(s.ledger.inventory, name, price.value);
      var line := NewLine(name, qty.value, price.value);
      var draft := s.draft + [line];
      assert draft[..|s.draft|] == s.draft && draft[|s.draft|] == line;
      Ok(Session(s.ledger.(inventory := inventory), draft))
  }

  /** `removeInvoiceItem`: splices one line out of the draft; the ledger is untouched and the
      remaining lines are the old ones, in order, minus exactly the removed one. */
  function RemoveInvoiceItem(s: Session, index: int): (r: Session)
    ensures r.ledger == s.ledger
    ensures var i := SpliceStart(|s.draft|, index);
      i < |s.draft| ==> r.draft == s.draft[..i] + s.draft[i + 1..]
    ensures SpliceStart(|s.draft|, index) < |s.draft| ==> multiset(r.draft) + multiset{s.draft[SpliceStart(|s.draft|, index)]} == multiset(s.draft)
    ensures SpliceStart(|s.draft|, index) == |s.draft| ==> r.draft == s.draft
    ensures LinesConsistent(s.draft) ==> LinesConsistent(r.draft)
  {
    RemoveAtMultiset(s.draft, index);
    Session(s.ledger, RemoveAt(s.draft, index))
  }

  /** The delivery field's charge: an empty or unparsable field (and a zero) counts as no charge. */
  function DeliveryCharge(delivery: Option<real>): real
  {
    delivery.GetOr(0.0)
  }

  /** `calculateInvoiceTotal`: the stored subtotals summed, plus the delivery charge. An empty
      draft costs just the delivery, and lines without negative subtotals never bring the total
      below it. */
  function CalculateInvoiceTotal(draft: seq<Line>, delivery: Option<real>): (total: real)
    ensures |draft| == 0 ==> total == DeliveryCharge(delivery)
    ensures (forall k :: 0 <= k < |draft| ==> draft[k].subtotal >= 0.0) ==> total >= DeliveryCharge(delivery)
  {
    var items := Sum(draft, SubtotalOf);
    assert (forall k :: 0 <= k < |draft| ==> draft[k].subtotal >= 0.0) ==> items >= 0.0 by {
      if forall k :: 0 <= k < |draft| ==> draft[k].subtotal >= 0.0 {
        SumNonNegative(draft, SubtotalOf);
      }
    }
    items + DeliveryCharge(delivery)
  }

  /** On a draft whose subtotals are quantity times price, the total is the sum of quantity
      times price over the lines plus the delivery charge, 0 when the field is empty. */
  lemma {:induction false} DraftTotalFormula(draft: seq<Line>, delivery: Option<real>)
    requires LinesConsistent(draft)
    ensures CalculateInvoiceTotal(draft, delivery) == Sum(draft, LineValue) + DeliveryCharge(delivery)
    ensures delivery.None? ==> CalculateInvoiceTotal(draft, delivery) == Sum(draft, LineValue)
  {
    SumPointwise(draft, SubtotalOf, LineValue);
  }

  /** Adding a line keeps the draft consistent and raises the total by quantity times price. */
  lemma AddItemRaisesTotal(s: Session, rawName: string, qty: Option<int>, price: Option<real>, delivery: Option<real>)
    requires Trim(rawName) != "" && qty.Some? && price.Some?
    ensures var s' := AddInvoiceItem(s, rawName, qty, price).value;
      && (LinesConsistent(s.draft) ==> LinesConsistent(s'.draft))
      && CalculateInvoiceTotal(s'.draft, delivery) == CalculateInvoiceTotal(s.draft, delivery) + qty.value as real * price.value
  {
    var s' := AddInvoiceItem(s, rawName, qty, price).value;
    assert s'.draft == s.draft + [s'.draft[|s.draft|]];
    SumConcat(s.draft, [s'.draft[|s.draft|]], SubtotalOf);
  }

  /** Removing a line lowers the total by exactly that line's subtotal. */
  lemma RemoveItemLowersTotal(s: Session, index: int, delivery: Option<real>)
    requires SpliceStart(|s.draft|, index) < |s.draft|
    ensures CalculateInvoiceTotal(RemoveInvoiceItem(s, index).draft, delivery)
      == CalculateInvoiceTotal(s.draft, delivery) - s.draft[SpliceStart(|s.draft|, index)].subtotal
  {
    RemoveAtSum(s.draft, index, SubtotalOf);
  }

  /** The customer record an invoice is issued to: the first stored customer whose name matches
      ignoring case, else a new record with the typed name and phone. */
  function InvoiceCustomer(customers: seq<Customer>, name: string, phone: string): (c: Customer)
    ensures SameName(c.name, name)
    ensures !HasCustomer(customers, name) ==> c == Customer(name, phone)
    ensures HasCustomer(customers, name) ==> exists k ::
      && 0 <= k < |customers| && customers[k] == c
      && forall j :: 0 <= j < k ==> !SameName(customers[j].name, name)
  {
    match FindFirst(customers, NamedCustomer(name))
    case Some(k) => customers[k]
    case None => Customer(name, phone)
  }

  /** `generateInvoice`, ledger part: the checks run in the app's order and any failure
      changes nothing. On success exactly one invoice is appended, carrying the draft lines, the
      delivery charge and the form's total; a customer is added only when none matches the name
      ignoring case; inventory and payments are untouched and the draft is cleared. */
  function GenerateInvoice(s: Session, rawName: string, rawPhone: string, delivery: Option<real>,
                           exporterLoaded: bool, id: string, date: string): (r: Result<Session>)
    ensures r.Err? <==> Trim(rawName) == "" || Trim(rawPhone) == "" || |s.draft| == 0 || !exporterLoaded
    ensures r.Err? && (Trim(rawName) == "" || Trim(rawPhone) == "") ==> r.error == MissingCustomerFields
    ensures r.Err? && Trim(rawName) != "" && Trim(rawPhone) != "" && |s.draft| == 0 ==> r.error == EmptyDraft
    ensures r.Err? && Trim(rawName) != "" && Trim(rawPhone) != "" && |s.draft| > 0 ==> r.error == ExporterUnavailable
    ensures r.Ok? ==>
      var l := s.ledger;
      var l' := r.value.ledger;
      && |l'.invoices| == |l.invoices| + 1
      && l'.invoices[..|l.invoices|] == l.invoices
      && l'.invoices[|l.invoices|].id == id
      && l'.invoices[|l.invoices|].date == date
      && l'.invoices[|l.invoices|].items == s.draft
      && l'.invoices[|l.invoices|].delivery == DeliveryCharge(delivery)
      && l'.invoices[|l.invoices|].total == CalculateInvoiceTotal(s.draft, delivery)
      && l'.invoices[|l.invoices|].paid == 0.0
      && l'.invoices[|l.invoices|].customer == InvoiceCustomer(l.customers, Trim(rawName), Trim(rawPhone))
    ensures r.Ok? ==> HasCustomer(s.ledger.customers, Trim(rawName)) ==> r.value.ledger.customers == s.ledger.customers
    ensures r.Ok? ==> !HasCustomer(s.ledger.customers, Trim(rawName)) ==>
      r.value.ledger.customers == s.ledger.customers + [Customer(Trim(rawName), Trim(rawPhone))]
    ensures r.Ok? ==> r.value.ledger.inventory == s.ledger.inventory && r.value.ledger.payments == s.ledger.payments
    ensures r.Ok? ==> r.value.draft == []
  {
    var name := Trim(rawName);
    var phone := Trim(rawPhone);
    if name == "" || phone == "" then Err(MissingCustomerFields)
    else if |s.draft| == 0 then Err(EmptyDraft)
    else if !exporterLoaded then Err(ExporterUnavailable)
    else
      var customers := AddCustomerIfNew(s.ledger.customers, name, phone);
      var invoice := Invoice(id, date, InvoiceCustomer(s.ledger.customers, name, phone), s.draft,
                             DeliveryCharge(delivery), CalculateInvoiceTotal(s.draft, delivery), 0.0);
      Ok(Session(s.ledger.(customers := customers, invoices := s.ledger.invoices + [invoice]), []))
  }

  /** An invoice generated from a consistent draft has total = sum of quantity times price plus
      delivery, so generating keeps every stored total consistent with its lines. */
  lemma GeneratedTotalFormula(s: Session, rawName: string, rawPhone: string, delivery: Option<real>,
                              exporterLoaded: bool, id: string, date: string)
    requires LinesConsistent(s.draft)
    requires TotalsConsistent(s.ledger.invoices)
    requires Trim(rawName) != "" && Trim(rawPhone) != "" && |s.draft| > 0 && exporterLoaded
    ensures var l' := GenerateInvoice(s, rawName, rawPhone, delivery, exporterLoaded, id, date).value.ledger;
      && l'.invoices[|s.ledger.invoices|].total == Sum(s.draft, LineValue) + DeliveryCharge(delivery)
      && TotalsConsistent(l'.invoices)
  {
    DraftTotalFormula(s.draft, delivery);
  }

  /** Generating keeps every payment pointing at an existing invoice; it keeps ids distinct
      only when the caller's id is new, since the app does not check for collisions. */
  lemma GenerateKeepsReferences(s: Session, rawName: string, rawPhone: string, delivery: Option<real>,
                                exporterLoaded: bool, id: string, date: string)
    requires Trim(rawName) != "" && Trim(rawPhone) != "" && |s.draft| > 0 && exporterLoaded
    ensures var l' := GenerateInvoice(s, rawName, rawPhone, delivery, exporterLoaded, id, date).value.ledger;
      && (PaymentsReferenceInvoices(s.ledger) ==> PaymentsReferenceInvoices(l'))
      && (DistinctIds(s.ledger.invoices) && id !in Ids(s.ledger.invoices) ==> DistinctIds(l'.invoices))
      && (id in Ids(s.ledger.invoices) ==> !DistinctIds(l'.invoices))
  {
  }

  /** The new invoice's total lands in the bucket of its own date and in no other. */
  lemma GenerateAddsToItsDay(s: Session, rawName: string, rawPhone: string, delivery: Option<real>,
                             exporterLoaded: bool, id: string, date: string, day: string)
    requires Trim(rawName) != "" && Trim(rawPhone) != "" && |s.draft| > 0 && exporterLoaded
    ensures var l' := GenerateInvoice(s, rawName, rawPhone, delivery, exporterLoaded, id, date).value.ledger;
      SalesOn(l'.invoices, day) == SalesOn(s.ledger.invoices, day)
        + (if day == date then CalculateInvoiceTotal(s.draft, delivery) else 0.0)
  {
    var l' := GenerateInvoice(s, rawName, rawPhone, delivery, exporterLoaded, id, date).value.ledger;
    var inv := l'.invoices[|s.ledger.invoices|];
    assert l'.invoices == s.ledger.invoices + [inv];
    FilterConcat(s.ledger.invoices, [inv], DatedOn(day));
    SumConcat(Filter(s.ledger.invoices, DatedOn(day)), Filter([inv], DatedOn(day)), TotalOf);
  }
}

/** Worked runs of the ledger on concrete amounts: an invoice's life from draft to fully paid,
    an overpayment, and a rejected restore. Names, ids and dates stay symbolic; only the
    amounts are fixed. */
module Scenarios {
  import opened Seqs
  import opened Text
  import opened State
  import opened Reconcile
  import opened Invoicing
  import opened Store

  /** Two of an item at 5.50. */
  function TwoAt550(item: string): Line
  {
    Line(item, 2, 5.50, 11.00)
  }

  /** Text typed without surrounding white space. */
  predicate Clean(s: string)
  {
    s != "" && Trim(s) == s
  }

  /** One line worth 11.00 and a 1.00 delivery charge make 12.00. */
  lemma TwoAt550Total(item: string)
    ensures CalculateInvoiceTotal([TwoAt550(item)], Some(1.00)) == 12.00
  {
    var line := TwoAt550(item);
    assert [line][1..] == [];
    assert Sum([line][1..], SubtotalOf) == 0.0;
    assert Sum([line], SubtotalOf) == 11.00;
  }

  /** Adding two of an item at 5.50 to an empty draft gives a draft of one 11.00 line. */
  lemma DraftTwo(l: Ledger, item: string)
    requires Clean(item)
    ensures AddInvoiceItem(Session(l, []), item, Some(2), Some(5.50)).Ok?
    ensures AddInvoiceItem(Session(l, []), item, Some(2), Some(5.50)).value.draft == [TwoAt550(item)]
  {
  }

  /** Issuing that draft with a 1.00 delivery charge on a ledger without invoices stores one
      invoice of 12.00 that nothing has been paid on yet. */
  lemma IssueTwelve(l: Ledger, item: string, name: string, phone: string, id: string, date: string)
    requires l.invoices == [] && l.payments == []
    requires Clean(item) && Clean(name) && Clean(phone)
    ensures var r := GenerateInvoice(Session(l, [TwoAt550(item)]), name, phone, Some(1.00), true, id, date);
      && r.Ok?
      && |r.value.ledger.invoices| == 1
      && r.value.ledger.invoices[0].id == id
      && r.value.ledger.invoices[0].total == 12.00
      && r.value.ledger.payments == []
      && Credit(r.value.ledger, r.value.ledger.invoices[0]) == 12.00
  {
    TwoAt550Total(item);
    var l' := GenerateInvoice(Session(l, [TwoAt550(item)]), name, phone, Some(1.00), true, id, date).value.ledger;
    assert PaidFor(l'.payments, id) == 0.0;
  }

  /** On a ledger holding only a 12.00 invoice, paying 8.00 needs no confirmation and leaves
      4.00 owed; paying 4.00 more leaves nothing owed; a further 1.00 would be an overpayment
      and is cancelled unless confirmed. */
  lemma PayInTwo(l: Ledger, inv: Invoice, d1: string, d2: string)
    requires l.invoices == [inv] && l.payments == []
    requires inv.id != "" && inv.total == 12.00
    ensures var r1 := RecordPayment(l, inv.id, Some(8.00), false, d1);
      && r1.Ok?
      && Credit(r1.value, inv) == 4.00
      && var r2 := RecordPayment(r1.value, inv.id, Some(4.00), false, d2);
      && r2.Ok?
      && Credit(r2.value, inv) == 0.00
      && RecordPayment(r2.value, inv.id, Some(1.00), false, d2) == Err(Cancelled)
  {
    assert Ids(l.invoices)[0] == inv.id;
    assert inv.id in Ids(l.invoices);
    assert DueOn(l, inv.id) == Some(12.00);
    var l1 := RecordPayment(l, inv.id, Some(8.00), false, d1).value;
    PaidForAppend(l.payments, Payment(inv.id, 8.00, d1), inv.id);
    assert DueOn(l1, inv.id) == Some(4.00);
    var l2 := RecordPayment(l1, inv.id, Some(4.00), false, d2).value;
    PaidForAppend(l1.payments, Payment(inv.id, 4.00, d2), inv.id);
    assert DueOn(l2, inv.id) == Some(0.00);
  }

  /** Two of an item at 5.50 with 1.00 delivery come to 12.00; paying 8.00 leaves 4.00 owed, and
      paying 4.00 more leaves nothing owed. */
  lemma InvoiceLifecycle(l: Ledger, item: string, name: string, phone: string, id: string, d1: string, d2: string)
    requires l.invoices == [] && l.payments == []
    requires Clean(item) && Clean(name) && Clean(phone) && id != ""
    ensures var drafted := AddInvoiceItem(Session(l, []), item, Some(2), Some(5.50));
      && drafted.Ok?
      && var issued := GenerateInvoice(drafted.value, name, phone, Some(1.00), true, id, d1);
      && issued.Ok?
      && issued.value.ledger.invoices[0].total == 12.00
      && var paid := RecordPayment(issued.value.ledger, id, Some(8.00), false, d1);
      && paid.Ok?
      && Credit(paid.value, issued.value.ledger.invoices[0]) == 4.00
      && var settled := RecordPayment(paid.value, id, Some(4.00), false, d2);
      && settled.Ok?
      && Credit(settled.value, issued.value.ledger.invoices[0]) == 0.00
  {
    DraftTwo(l, item);
    var drafted := AddInvoiceItem(Session(l, []), item, Some(2), Some(5.50)).value;
    assert drafted == Session(drafted.ledger, [TwoAt550(item)]);
    IssueTwelve(drafted.ledger, item, name, phone, id, d1);
    var issued := GenerateInvoice(drafted, name, phone, Some(1.00), true, id, d1).value.ledger;
    assert issued.invoices == [issued.invoices[0]];
    PayInTwo(issued, issued.invoices[0], d1, d2);
  }

  /** Paying 15.00 on a 10.00 invoice needs confirmation; once confirmed the invoice's credit is
      -5.00 while the customer's outstanding credit stays 0.00. */
  lemma Overpayment()
    ensures var jane := Customer("Jane Smith", "555-0202");
      var l := Ledger([jane], [], [Invoice("INV-1", "d", jane, [Line("Mocha", 1, 10.00, 10.00)], 0.0, 10.00, 0.0)], []);
      && RecordPayment(l, "INV-1", Some(15.00), false, "d") == Err(Cancelled)
      && RecordPayment(l, "INV-1", Some(15.00), true, "d").Ok?
      && var l' := RecordPayment(l, "INV-1", Some(15.00), true, "d").value;
      && Credit(l', l.invoices[0]) == -5.00
      && CustomerOutstanding(l', "Jane Smith") == 0.00
  {
  }

  /** A document holding only an inventory is rejected as invalid, and so is a number. `null`
      is unreadable in a backup file and invalid from the cloud. */
  lemma InvalidRestore(items: seq<Item>)
    ensures Restore(BackupFile, Value(Snapshot(None, Some(items), None, None))) == Err(InvalidSnapshot)
    ensures Restore(BackupFile, Value(NothingStored)) == Err(InvalidSnapshot)
    ensures Restore(BackupFile, Null) == Err(Unreadable)
    ensures Restore(Cloud, Null) == Err(InvalidSnapshot)
  {
  }
}

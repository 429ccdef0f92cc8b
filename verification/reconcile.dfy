/** Read-only derivations over a ledger: what has been paid against an invoice and what is
    still owed on it, a customer's outstanding credit on the payments tab, the dashboard and
    reports totals, and the seven-day sales buckets behind the dashboard's bar chart. */
module Reconcile {
  import opened Seqs
  import opened State

  function TotalOf(inv: Invoice): real
  {
    inv.total
  }

  function AmountOf(p: Payment): real
  {
    p.amount
  }

  function PaidTo(id: string): Payment -> bool
  {
    (p: Payment) => p.invoiceId == id
  }

  function NotPaidTo(id: string): Payment -> bool
  {
    (p: Payment) => p.invoiceId != id
  }

  /** What has been paid against an invoice: the amounts of the payments carrying its id. It is
      0 when no payment names the invoice, and when every amount is positive it is never
      negative and is positive exactly when some payment names the invoice. */
  function PaidFor(payments: seq<Payment>, id: string): (paid: real)
    ensures (forall k :: 0 <= k < |payments| ==> payments[k].invoiceId != id) ==> paid == 0.0
    ensures AmountsPositive(payments) ==> paid >= 0.0
    ensures AmountsPositive(payments) ==>
      (paid > 0.0 <==> exists k :: 0 <= k < |payments| && payments[k].invoiceId == id)
  {
    SumOfKept(payments, PaidTo(id), AmountOf);
    Sum(Filter(payments, PaidTo(id)), AmountOf)
  }

  /** `inv.total - paid`, negative once the invoice has been overpaid: the whole total while no
      payment names the invoice, and with positive amounts below the total exactly when one does. */
  function Credit(l: Ledger, inv: Invoice): (credit: real)
    ensures (forall k :: 0 <= k < |l.payments| ==> l.payments[k].invoiceId != inv.id) ==> credit == inv.total
    ensures AmountsPositive(l.payments) ==> credit <= inv.total
    ensures AmountsPositive(l.payments) ==>
      (credit < inv.total <==> exists k :: 0 <= k < |l.payments| && l.payments[k].invoiceId == inv.id)
  {
    inv.total - PaidFor(l.payments, inv.id)
  }

  function CreditOf(l: Ledger): Invoice -> real
  {
    (inv: Invoice) => Credit(l, inv)
  }

  /** The share of an invoice counted towards a customer's outstanding credit: its credit when
      positive, otherwise zero. */
  function Clamped(credit: Invoice -> real): Invoice -> real
  {
    (inv: Invoice) => if credit(inv) > 0.0 then credit(inv) else 0.0
  }

  function Positive(credit: Invoice -> real): Invoice -> bool
  {
    (inv: Invoice) => credit(inv) > 0.0
  }

  function ClampedCredit(l: Ledger): Invoice -> real
  {
    Clamped(CreditOf(l))
  }

  function HasCredit(l: Ledger): Invoice -> bool
  {
    Positive(CreditOf(l))
  }

  /** The payments tab selects a customer's invoices by exact, case-sensitive name. */
  function OfCustomer(name: string): Invoice -> bool
  {
    (inv: Invoice) => inv.customer.name == name
  }

  /** A customer's outstanding credit: the sum over their invoices of the credit, counting an
      overpaid invoice as zero so that it cannot offset the debt on another. It is never
      negative, and it is positive exactly when one of their invoices still has credit. */
  function CustomerOutstanding(l: Ledger, name: string): (owed: real)
    ensures owed >= 0.0
    ensures owed > 0.0 <==> exists k :: 0 <= k < |l.invoices| && l.invoices[k].customer.name == name && Credit(l, l.invoices[k]) > 0.0
  {
    var mine := Filter(l.invoices, OfCustomer(name));
    OutstandingIffOffered(mine, CreditOf(l));
    NestedFilterNonEmpty(l.invoices, OfCustomer(name), HasCredit(l));
    Sum(mine, ClampedCredit(l))
  }

  lemma PaidForAppend(payments: seq<Payment>, p: Payment, id: string)
    ensures PaidFor(payments + [p], id) == PaidFor(payments, id) + (if p.invoiceId == id then p.amount else 0.0)
  {
    FilterConcat(payments, [p], PaidTo(id));
    SumConcat(Filter(payments, PaidTo(id)), Filter([p], PaidTo(id)), AmountOf);
  }

  lemma PaidForPrepend(p: Payment, payments: seq<Payment>, id: string)
    ensures PaidFor([p] + payments, id) == (if p.invoiceId == id then p.amount else 0.0) + PaidFor(payments, id)
  {
    FilterConcat([p], payments, PaidTo(id));
    SumConcat(Filter([p], PaidTo(id)), Filter(payments, PaidTo(id)), AmountOf);
  }

  /** The view `loadCustomerInvoices` paints: the invoices offered for payment and the
      customer's total outstanding credit. */
  datatype CreditView = CreditView(offered: seq<string>, totalCredit: real)

  /** `loadCustomerInvoices`: no view is computed for an empty selection (the app returns early
      and leaves the previous view in place); otherwise it walks the customer's
      invoices, offers those with a positive credit and adds up those credits. The total is never
      negative, is positive exactly when something is offered, and equals the clamped sum. */
  method LoadCustomerInvoices(l: Ledger, name: string) returns (view: Option<CreditView>)
    ensures view.None? <==> name == ""
    ensures view.Some? ==> view.value.totalCredit == CustomerOutstanding(l, name)
    ensures view.Some? ==> view.value.totalCredit >= 0.0
    ensures view.Some? ==> (view.value.totalCredit > 0.0 <==> |view.value.offered| > 0)
    ensures view.Some? ==> view.value.offered == Ids(Filter(Filter(l.invoices, OfCustomer(name)), HasCredit(l)))
  {
    if name == "" {
      return None;
    }
    var invoices := Filter(l.invoices, OfCustomer(name));
    var offered, totalCredit := ScanCredits(invoices, CreditOf(l));
    OutstandingIffOffered(invoices, CreditOf(l));
    view := Some(CreditView(offered, totalCredit));
  }

  /** The walk over one customer's invoices: the ids of those with a positive credit, in order,
      and the sum of those credits. */
  method ScanCredits(invoices: seq<Invoice>, credit: Invoice -> real) returns (offered: seq<string>, totalCredit: real)
    ensures totalCredit == Sum(invoices, Clamped(credit))
    ensures offered == Ids(Filter(invoices, Positive(credit)))
  {
    offered := [];
    totalCredit := 0.0;
    var i := 0;
    while i < |invoices|
      invariant 0 <= i <= |invoices|
      invariant totalCredit == Sum(invoices[..i], Clamped(credit))
      invariant offered == Ids(Filter(invoices[..i], Positive(credit)))
    {
      var inv := invoices[i];
      assert invoices[..i + 1] == invoices[..i] + [inv];
      ScanStep(invoices[..i], inv, credit);
      if credit(inv) > 0.0 {
        totalCredit := totalCredit + credit(inv);
        offered := offered + [inv.id];
      }
      i := i + 1;
    }
    assert invoices[..i] == invoices;
  }

  /** One step of the walk in `ScanCredits`. */
  lemma ScanStep(done: seq<Invoice>, inv: Invoice, credit: Invoice -> real)
    ensures Sum(done + [inv], Clamped(credit)) == Sum(done, Clamped(credit)) + (if credit(inv) > 0.0 then credit(inv) else 0.0)
    ensures Ids(Filter(done + [inv], Positive(credit))) == Ids(Filter(done, Positive(credit))) + (if credit(inv) > 0.0 then [inv.id] else [])
  {
    SumConcat(done, [inv], Clamped(credit));
    FilterConcat(done, [inv], Positive(credit));
    var kept := Filter(done, Positive(credit));
    if credit(inv) > 0.0 {
      assert Filter([inv], Positive(credit)) == [inv];
      assert Ids(kept + [inv]) == Ids(kept) + [inv.id];
    } else {
      assert Filter([inv], Positive(credit)) == [];
      assert kept + [] == kept;
    }
  }

  /** The clamped credits are never negative in sum, and their sum is positive exactly when some
      invoice has a positive credit. */
  lemma {:induction false} OutstandingIffOffered(invoices: seq<Invoice>, credit: Invoice -> real)
    ensures Sum(invoices, Clamped(credit)) >= 0.0
    ensures Sum(invoices, Clamped(credit)) > 0.0 <==> |Filter(invoices, Positive(credit))| > 0
  {
    if |invoices| > 0 {
      OutstandingIffOffered(invoices[1..], credit);
    }
  }

  /** Only invoices of that customer with a positive credit are ever offered for payment. */
  lemma OfferedInvoicesArePayable(l: Ledger, name: string, k: nat)
    requires k < |Filter(Filter(l.invoices, OfCustomer(name)), HasCredit(l))|
    ensures var inv := Filter(Filter(l.invoices, OfCustomer(name)), HasCredit(l))[k];
      inv in l.invoices && inv.customer.name == name && Credit(l, inv) > 0.0
  {
    var mine := Filter(l.invoices, OfCustomer(name));
    FilterMembers(mine, HasCredit(l));
    FilterMembers(l.invoices, OfCustomer(name));
  }

  datatype Totals = Totals(totalSale: real, totalPaid: real, totalCredit: real)

  function TotalSale(invoices: seq<Invoice>): real
  {
    Sum(invoices, TotalOf)
  }

  function TotalPaid(payments: seq<Payment>): real
  {
    Sum(payments, AmountOf)
  }

  /** `renderDashboard`: sales and payments summed, credit clamped at zero. */
  function DashboardTotals(l: Ledger): (t: Totals)
    ensures t.totalSale == TotalSale(l.invoices) && t.totalPaid == TotalPaid(l.payments)
    ensures t.totalCredit >= 0.0
    ensures t.totalCredit >= t.totalSale - t.totalPaid
    ensures t.totalCredit == 0.0 || t.totalCredit == t.totalSale - t.totalPaid
  {
    var sale := TotalSale(l.invoices);
    var paid := TotalPaid(l.payments);
    Totals(sale, paid, if sale - paid > 0.0 then sale - paid else 0.0)
  }

  /** `renderReports`: the same sums, credit left unclamped. */
  function ReportTotals(l: Ledger): (t: Totals)
    ensures t.totalSale == TotalSale(l.invoices) && t.totalPaid == TotalPaid(l.payments)
    ensures t.totalCredit == t.totalSale - t.totalPaid
  {
    var sale := TotalSale(l.invoices);
    var paid := TotalPaid(l.payments);
    Totals(sale, paid, sale - paid)
  }

  /** The two views agree on sales and payments; the dashboard's credit is the reports' credit
      clamped at zero, so they differ exactly when more has been paid than sold. */
  lemma DashboardClampsReport(l: Ledger)
    ensures DashboardTotals(l).totalSale == ReportTotals(l).totalSale
    ensures DashboardTotals(l).totalPaid == ReportTotals(l).totalPaid
    ensures ReportTotals(l).totalCredit >= 0.0 ==> DashboardTotals(l).totalCredit == ReportTotals(l).totalCredit
    ensures ReportTotals(l).totalCredit < 0.0 ==> DashboardTotals(l).totalCredit == 0.0
  {
  }

  function Hit(id: string, amount: real): Invoice -> real
  {
    (inv: Invoice) => if inv.id == id then amount else 0.0
  }

  lemma {:induction false} HitMissesAll(invoices: seq<Invoice>, id: string, amount: real)
    requires id !in Ids(invoices)
    ensures Sum(invoices, Hit(id, amount)) == 0.0
  {
    if |invoices| > 0 {
      assert Ids(invoices[1..]) == Ids(invoices)[1..];
      HitMissesAll(invoices[1..], id, amount);
    }
  }

  /** With distinct ids, an amount booked against one existing id lands on exactly one invoice. */
  lemma {:induction false} HitLandsOnce(invoices: seq<Invoice>, id: string, amount: real)
    requires DistinctIds(invoices)
    requires id in Ids(invoices)
    ensures Sum(invoices, Hit(id, amount)) == amount
  {
    assert Ids(invoices[1..]) == Ids(invoices)[1..];
    if invoices[0].id == id {
      assert id !in Ids(invoices[1..]);
      HitMissesAll(invoices[1..], id, amount);
    } else {
      HitLandsOnce(invoices[1..], id, amount);
    }
  }

  function PaidPerInvoice(payments: seq<Payment>): Invoice -> real
  {
    (inv: Invoice) => PaidFor(payments, inv.id)
  }

  /** When ids are distinct and every payment names an existing invoice, the per-invoice paid
      amounts add up to the total of all payments. */
  lemma {:induction false} PaymentsSplitAcrossInvoices(invoices: seq<Invoice>, payments: seq<Payment>)
    requires DistinctIds(invoices)
    requires forall k :: 0 <= k < |payments| ==> payments[k].invoiceId in Ids(invoices)
    ensures Sum(invoices, PaidPerInvoice(payments)) == TotalPaid(payments)
  {
    if |payments| == 0 {
      ZeroSum(invoices);
    } else {
      var p := payments[0];
      var rest := payments[1..];
      assert payments == [p] + rest;
      forall inv: Invoice
        ensures PaidPerInvoice(payments)(inv) == Hit(p.invoiceId, p.amount)(inv) + PaidPerInvoice(rest)(inv)
      {
        PaidForPrepend(p, rest, inv.id);
      }
      SumAddition(invoices, Hit(p.invoiceId, p.amount), PaidPerInvoice(rest), PaidPerInvoice(payments));
      HitLandsOnce(invoices, p.invoiceId, p.amount);
      PaymentsSplitAcrossInvoices(invoices, rest);
    }
  }

  lemma {:induction false} ZeroSum(invoices: seq<Invoice>)
    ensures Sum(invoices, PaidPerInvoice([])) == 0.0
  {
    if |invoices| > 0 {
      ZeroSum(invoices[1..]);
    }
  }

  /** On a ledger whose payments all name existing, distinct invoices, the reports' credit is
      the sum of the per-invoice credits shown in its table. */
  lemma ReportCreditIsSumOfCredits(l: Ledger)
    requires DistinctIds(l.invoices)
    requires PaymentsReferenceInvoices(l)
    ensures ReportTotals(l).totalCredit == Sum(l.invoices, CreditOf(l))
  {
    SumDifference(l.invoices, TotalOf, PaidPerInvoice(l.payments), CreditOf(l));
    PaymentsSplitAcrossInvoices(l.invoices, l.payments);
  }

  /** On such a ledger the per-invoice outstanding amounts, overpayments counted as zero, never
      add up to less than the dashboard's clamped credit. */
  lemma ClampedCreditsCoverDashboard(l: Ledger)
    requires DistinctIds(l.invoices)
    requires PaymentsReferenceInvoices(l)
    ensures Sum(l.invoices, ClampedCredit(l)) >= DashboardTotals(l).totalCredit
  {
    ReportCreditIsSumOfCredits(l);
    SumMonotone(l.invoices, CreditOf(l), ClampedCredit(l));
    SumNonNegative(l.invoices, ClampedCredit(l));
  }

  function DatedOn(date: string): Invoice -> bool
  {
    (inv: Invoice) => inv.date == date
  }

  function DatedIn(days: seq<string>): Invoice -> bool
  {
    (inv: Invoice) => inv.date in days
  }

  /** The sales booked on one calendar day (matched by the exact date string). */
  function SalesOn(invoices: seq<Invoice>, date: string): real
  {
    Sum(Filter(invoices, DatedOn(date)), TotalOf)
  }

  /** `dailySales` in `initCharts`: one bucket per given day, in the given order. The days are
      the caller's last seven local dates. */
  function DailySales(l: Ledger, days: seq<string>): (r: seq<real>)
    ensures |r| == |days|
    ensures forall k :: 0 <= k < |days| ==> r[k] == SalesOn(l.invoices, days[k])
  {
    seq(|days|, k requires 0 <= k < |days| => SalesOn(l.invoices, days[k]))
  }

  /** A day without invoices reports zero rather than nothing. */
  lemma EmptyDayIsZero(l: Ledger, days: seq<string>, k: nat)
    requires k < |days|
    requires forall j :: 0 <= j < |l.invoices| ==> l.invoices[j].date != days[k]
    ensures DailySales(l, days)[k] == 0.0
  {
    FilterDropsAll(l.invoices, DatedOn(days[k]));
  }

  function Identity(x: real): real
  {
    x
  }

  predicate DistinctDays(days: seq<string>)
  {
    forall i, j :: 0 <= i < j < |days| ==> days[i] != days[j]
  }

  lemma DatedInSplit(days: seq<string>)
    requires |days| > 0 && DistinctDays(days)
    ensures forall inv: Invoice :: DatedIn(days)(inv) == (DatedOn(days[0])(inv) || DatedIn(days[1..])(inv))
    ensures forall inv: Invoice :: !(DatedOn(days[0])(inv) && DatedIn(days[1..])(inv))
  {
  }

  /** For distinct days the buckets together hold exactly the sales dated on one of them. */
  lemma {:induction false} DailySalesCoverDays(l: Ledger, days: seq<string>)
    requires DistinctDays(days)
    ensures Sum(DailySales(l, days), Identity) == Sum(Filter(l.invoices, DatedIn(days)), TotalOf)
  {
    if |days| == 0 {
      FilterDropsAll(l.invoices, DatedIn(days));
    } else {
      var rest := days[1..];
      var buckets := DailySales(l, days);
      assert buckets[1..] == DailySales(l, rest);
      assert Sum(buckets, Identity) == buckets[0] + Sum(buckets[1..], Identity);
      DailySalesCoverDays(l, rest);
      DatedInSplit(days);
      SumFilterUnion(l.invoices, DatedIn(days), DatedOn(days[0]), DatedIn(rest), TotalOf);
    }
  }
}

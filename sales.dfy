/** The sales page: a sale is recorded as an amount in cash and an amount by
    PIX (instant transfer), and its total is their sum. The footer adds up the
    three columns. */
module Sales {
  import opened Wrappers
  import opened Seqs
  import opened Types
  import opened DataManager

  /** The sale form with its amounts already parsed (`None` is an empty or
      unparsable field). */
  datatype SaleForm = SaleForm(date: string, amountCash: Option<real>, amountPix: Option<real>)

  /** The form as it is opened and as it is reset after a submit. */
  function EmptyForm(today: string): SaleForm {
    SaleForm(today, None, None)
  }

  /** `parseFloat(x) || 0`: an empty field counts as 0. */
  function OrZero(x: Option<real>): (r: real)
    ensures x.None? ==> r == 0.0
    ensures x.Some? ==> r == x.value
  {
    x.GetOr(0.0)
  }

  /** The sale a submit records, if any: refused when both amounts are 0;
      otherwise the amounts as entered (empty as 0) and their sum. */
  function BuildSale(form: SaleForm, newId: Id): (r: Option<SaleRecord>)
    ensures r.None? <==> OrZero(form.amountCash) == 0.0 && OrZero(form.amountPix) == 0.0
    ensures r.Some? ==>
              var s := r.value;
              s.id == newId && s.eventId == None && s.date == form.date && s.notes == None &&
              s.amountCash == OrZero(form.amountCash) && s.amountPix == OrZero(form.amountPix) &&
              s.total == s.amountCash + s.amountPix
  {
    var cash := OrZero(form.amountCash);
    var pix := OrZero(form.amountPix);
    if cash == 0.0 && pix == 0.0 then None
    else Some(SaleRecord(newId, None, form.date, cash, pix, cash + pix, None))
  }

  /** Every sale's total is its cash plus its PIX amount. */
  predicate TotalsConsistent(sales: seq<SaleRecord>) {
    forall i :: 0 <= i < |sales| ==> sales[i].total == sales[i].amountCash + sales[i].amountPix
  }

  /** Sales recorded through the form keep the totals consistent. */
  lemma RecordedSaleKeepsTotals(sales: seq<SaleRecord>, form: SaleForm, newId: Id)
    requires TotalsConsistent(sales)
    requires BuildSale(form, newId).Some?
    ensures TotalsConsistent(sales + [BuildSale(form, newId).value])
  {
    var r := sales + [BuildSale(form, newId).value];
    assert forall i :: 0 <= i < |sales| ==> r[i] == sales[i];
  }

  /** The footer: total cash, total PIX and the sum of the totals. */
  datatype Footer = Footer(cash: real, pix: real, total: real)

  function SalesFooter(sales: seq<SaleRecord>): Footer {
    Footer(Sum(sales, SaleCash), Sum(sales, SalePix), Sum(sales, SaleTotal))
  }

  /** When every sale is consistent, the footer's total column is the sum of
      the other two, and it is the revenue of the summary. */
  lemma FooterReconciles(sales: seq<SaleRecord>, expenses: seq<Expense>, purchases: seq<Purchase>)
    requires TotalsConsistent(sales)
    ensures var f := SalesFooter(sales);
            f.total == f.cash + f.pix && f.total == ComputeSummary(sales, expenses, purchases).totalRevenue
  {
    RevenueIsCashPlusPix(sales, expenses, purchases);
  }

  /** `handleSubmit`: records the sale when one of the amounts is not 0 and
      resets the form; a refused form is left as it is. */
  method SubmitSale(store: DataProvider, form: SaleForm, newId: Id, today: string)
    returns (next: SaleForm)
    modifies store`sales
    ensures match BuildSale(form, newId)
            case None => store.sales == old(store.sales) && next == form
            case Some(s) => store.sales == old(store.sales) + [s] && next == EmptyForm(today)
    ensures TotalsConsistent(old(store.sales)) ==> TotalsConsistent(store.sales)
  {
    var built := BuildSale(form, newId);
    if built.Some? {
      if TotalsConsistent(store.sales) {
        RecordedSaleKeepsTotals(store.sales, form, newId);
      }
      store.AddSale(built.value);
      next := EmptyForm(today);
    } else {
      next := form;
    }
  }
}

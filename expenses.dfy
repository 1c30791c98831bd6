/** The expenses page: an operational expense is recorded with a date, a
    description and an amount. The form carries a category that starts as
    `Geral` and that no input of the page can change. */
module Expenses {
  import opened Wrappers
  import opened Types
  import opened DataManager

  /** The expense form with its amount already parsed (`None` is an empty field). */
  datatype ExpenseForm = ExpenseForm(date: string, description: string, amount: Option<real>, category: string)

  /** The category every form starts with. */
  const DefaultCategory: string := "Geral"

  /** The form as it is opened and as it is reset after a submit. */
  function InitialForm(today: string): ExpenseForm {
    ExpenseForm(today, "", None, DefaultCategory)
  }

  /** The changes the page's inputs can make to the form: its date, its
      description and its amount fields. */
  datatype FormEdit = SetDate(date: string) | SetDescription(description: string) | SetAmount(amount: Option<real>)

  function ApplyEdit(form: ExpenseForm, e: FormEdit): ExpenseForm {
    match e
    case SetDate(d) => form.(date := d)
    case SetDescription(d) => form.(description := d)
    case SetAmount(a) => form.(amount := a)
  }

  /** The form after a series of inputs, applied in order. */
  function ApplyEdits(form: ExpenseForm, edits: seq<FormEdit>): ExpenseForm
    decreases |edits|
  {
    if edits == [] then form else ApplyEdits(ApplyEdit(form, edits[0]), edits[1..])
  }

  /** No series of inputs changes the category. */
  lemma {:induction false} EditsKeepCategory(form: ExpenseForm, edits: seq<FormEdit>)
    ensures ApplyEdits(form, edits).category == form.category
    decreases |edits|
  {
    if edits != [] {
      EditsKeepCategory(ApplyEdit(form, edits[0]), edits[1..]);
    }
  }

  /** The expense a submit records, if any: refused when the description or
      the amount is empty; otherwise the form's date, description, amount and
      category, with no supplier. */
  function BuildExpense(form: ExpenseForm, newId: Id): (r: Option<Expense>)
    ensures r.None? <==> form.description == "" || form.amount.None?
    ensures r.Some? ==>
              var e := r.value;
              e.id == newId && e.eventId == None && e.supplier == None && e.date == form.date &&
              e.description == form.description && Some(e.amount) == form.amount && e.category == form.category
  {
    if form.description == "" || form.amount.None? then None
    else Some(Expense(newId, None, form.date, None, form.description, form.amount.value, form.category))
  }

  /** Every expense recorded from a form reached by inputs from the initial
      form is filed under `Geral`. */
  lemma RecordedExpenseIsGeneral(today: string, edits: seq<FormEdit>, newId: Id)
    requires BuildExpense(ApplyEdits(InitialForm(today), edits), newId).Some?
    ensures BuildExpense(ApplyEdits(InitialForm(today), edits), newId).value.category == DefaultCategory
  {
    EditsKeepCategory(InitialForm(today), edits);
  }

  /** `handleSubmit`: records the expense and resets the form; a refused form
      is left as it is. */
  method SubmitExpense(store: DataProvider, form: ExpenseForm, newId: Id, today: string)
    returns (next: ExpenseForm)
    modifies store`expenses
    ensures match BuildExpense(form, newId)
            case None => store.expenses == old(store.expenses) && next == form
            case Some(e) => store.expenses == old(store.expenses) + [e] && next == InitialForm(today)
  {
    var built := BuildExpense(form, newId);
    if built.Some? {
      store.AddExpense(built.value);
      next := InitialForm(today);
    } else {
      next := form;
    }
  }
}

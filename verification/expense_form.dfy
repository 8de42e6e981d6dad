/**
 The add/edit expense dialog: four text fields, the per-field error flags,
 and `handleSubmit`, which either records the errors or hands one expense to
 the page and resets the form.

 `Number(text)` is the parameter `number`, giving NaN or an amount in cents;
 `new Date(text)` is the parameter `parseDate`, giving `None` for an invalid
 date, on which `toISOString` throws; `Date.now().toString()` is `freshId` and
 today's `YYYY-MM-DD` is `today`.
 */
module ExpenseForm {
  import opened Seqs
  import opened Expenses
  import opened Text

  /** The categories the dialog's select offers. */
  const Categories: seq<string> := [
    "Food & Dining", "Transportation", "Entertainment", "Utilities", "Shopping",
    "Health & Fitness", "Travel", "Education", "Personal Care", "Gifts & Donations",
    "Investments", "Bills & Fees", "Home", "General", "Other"]

  datatype Form = Form(amount: string, category: string, name: string, date: string)

  /** Which fields currently show an error message. */
  datatype Errors = Errors(amount: bool, category: bool, name: bool, date: bool)

  const NoErrors := Errors(false, false, false, false)

  predicate AnyError(e: Errors) {
    e.amount || e.category || e.name || e.date
  }

  datatype Dialog = Dialog(form: Form, errors: Errors)

  datatype NumberValue = NaN | Num(cents: int)

  /** The form a fresh dialog starts with, and the one a successful submit leaves behind. */
  function Blank(today: string): Form {
    Form("", "", "", today)
  }

  /** The four checks of `handleSubmit`, each on its own field. */
  function Validate(f: Form, number: string -> NumberValue): (e: Errors)
    ensures e.amount <==> f.amount == "" || number(f.amount).NaN? || number(f.amount).cents <= 0
    ensures e.category <==> f.category == ""
    ensures e.name <==> forall k :: 0 <= k < |f.name| ==> IsJsSpace(f.name[k])
    ensures e.date <==> f.date == ""
  {
    TrimEmptyIffBlank(f.name);
    var n := number(f.amount);
    Errors(f.amount == "" || n.NaN? || n.cents <= 0, f.category == "", Trim(f.name) == "", f.date == "")
  }

  /** What a submit did: the dialog afterwards and the expense handed to the page, if any. */
  datatype Step = Step(dialog: Dialog, emitted: Option<Expense>)

  /**
   `handleSubmit`. With any error the flags are shown and nothing is emitted;
   otherwise the expense carries the trimmed name, the parsed amount and date,
   and the edited expense's id (or a fresh one), and the form is reset. An
   unparseable date makes `toISOString` throw before anything happens: the
   form and the error flags stay as they were.
   */
  function Submit(d: Dialog, initial: Option<Expense>, number: string -> NumberValue,
                  parseDate: string -> Option<Date>, freshId: string, today: string): (r: Step)
    ensures AnyError(Validate(d.form, number)) ==> r == Step(Dialog(d.form, Validate(d.form, number)), None)
    ensures r.emitted.Some? <==> !AnyError(Validate(d.form, number)) && parseDate(d.form.date).Some?
    ensures !AnyError(Validate(d.form, number)) && parseDate(d.form.date).None? ==> r == Step(d, None)
    ensures r.emitted.None? ==> r.dialog.form == d.form
    ensures r.emitted.Some? ==> r.dialog == Dialog(Blank(today), NoErrors)
    ensures r.emitted.Some? ==>
      var e := r.emitted.value;
      && e.amount > 0 && number(d.form.amount) == Num(e.amount)
      && e.name == Trim(d.form.name) && e.name != ""
      && e.category == d.form.category && e.category != ""
      && parseDate(d.form.date) == Some(e.date)
      && e.id == (if initial.Some? then initial.value.id else freshId)
  {
    var errors := Validate(d.form, number);
    if AnyError(errors) then
      Step(Dialog(d.form, errors), None)
    else
      match parseDate(d.form.date)
      case None => Step(d, None)
      case Some(date) =>
        var id := if initial.Some? then initial.value.id else freshId;
        var e := Expense(id, Trim(d.form.name), number(d.form.amount).cents, d.form.category, date);
        Step(Dialog(Blank(today), NoErrors), Some(e))
  }

  datatype Field = AmountField | CategoryField | NameField | DateField

  /** Typing into a field (or picking a category) replaces its value and clears only its error. */
  function Change(d: Dialog, field: Field, value: string): (r: Dialog)
    ensures field != AmountField ==> r.form.amount == d.form.amount && r.errors.amount == d.errors.amount
    ensures field != CategoryField ==> r.form.category == d.form.category && r.errors.category == d.errors.category
    ensures field != NameField ==> r.form.name == d.form.name && r.errors.name == d.errors.name
    ensures field != DateField ==> r.form.date == d.form.date && r.errors.date == d.errors.date
    ensures field == AmountField ==> r.form.amount == value && !r.errors.amount
    ensures field == CategoryField ==> r.form.category == value && !r.errors.category
    ensures field == NameField ==> r.form.name == value && !r.errors.name
    ensures field == DateField ==> r.form.date == value && !r.errors.date
  {
    match field
    case AmountField => Dialog(d.form.(amount := value), d.errors.(amount := false))
    case CategoryField => Dialog(d.form.(category := value), d.errors.(category := false))
    case NameField => Dialog(d.form.(name := value), d.errors.(name := false))
    case DateField => Dialog(d.form.(date := value), d.errors.(date := false))
  }

  /**
   Opening the dialog on an existing expense (the `useEffect` on
   `initialExpense`): the fields show its amount, category, name and date,
   rendered by `amountText` and `dateText`; the errors stay as they were.
   */
  function Open(d: Dialog, initial: Expense, amountText: int -> string, dateText: Date -> string): (r: Dialog)
    ensures r.errors == d.errors
    ensures r.form.category == initial.category && r.form.name == initial.name
    ensures r.form.amount == amountText(initial.amount) && r.form.date == dateText(initial.date)
  {
    Dialog(Form(amountText(initial.amount), initial.category, initial.name, dateText(initial.date)), d.errors)
  }

  /**
   Saving an opened expense without touching the fields hands back the very
   same expense, provided it was a valid one and the renderings read back.
   */
  lemma OpenThenSubmitRoundTrip(d: Dialog, e: Expense, amountText: int -> string, dateText: Date -> string,
                                number: string -> NumberValue, parseDate: string -> Option<Date>,
                                freshId: string, today: string)
    requires e.amount > 0 && amountText(e.amount) != "" && number(amountText(e.amount)) == Num(e.amount)
    requires e.category != "" && e.name != "" && Trim(e.name) == e.name
    requires dateText(e.date) != "" && parseDate(dateText(e.date)) == Some(e.date)
    ensures Submit(Open(d, e, amountText, dateText), Some(e), number, parseDate, freshId, today).emitted == Some(e)
  {
    var o := Open(d, e, amountText, dateText);
    assert !Validate(o.form, number).name;
  }

  /** Right after a successful submit, submitting again is rejected: the reset form is incomplete. */
  lemma ResetFormIsRejected(d: Dialog, initial: Option<Expense>, number: string -> NumberValue,
                            parseDate: string -> Option<Date>, freshId: string, today: string)
    requires Submit(d, initial, number, parseDate, freshId, today).emitted.Some?
    ensures var r := Submit(d, initial, number, parseDate, freshId, today);
      Submit(r.dialog, initial, number, parseDate, freshId, today).emitted.None?
  {
    var r := Submit(d, initial, number, parseDate, freshId, today);
    assert Validate(r.dialog.form, number).amount;
  }
}

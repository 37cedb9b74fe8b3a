/** The "New Transaction" modal: its form, the change handler that forces
    the category of an income to "Other", and the submit handler that
    rejects a negative amount before posting. */
module NewTransactionModal {
  import opened Remote
  import opened JsNumber

  datatype TxForm = TxForm(
    txType: string,
    category: string,
    subject: string,
    amount: string,
    date: string,
    notes: string)

  /** The `name` attributes of the form's controls. */
  datatype FormField = TypeField | CategoryField | SubjectField | AmountField | DateField | NotesField

  function FieldValue(form: TxForm, f: FormField): string
  {
    match f
    case TypeField => form.txType
    case CategoryField => form.category
    case SubjectField => form.subject
    case AmountField => form.amount
    case DateField => form.date
    case NotesField => form.notes
  }

  /** `s.split("T")[0]`: everything before the first `T`. */
  function BeforeT(s: string): (r: string)
    ensures |r| <= |s| && r == s[..|r|]
    ensures 'T' !in r
    ensures |r| < |s| ==> s[|r|] == 'T'
  {
    if s == [] || s[0] == 'T' then [] else [s[0]] + BeforeT(s[1..])
  }

  /** The initial form; `defaultType` is the optional prop and `nowIso` the
      ISO rendering of the current time. */
  function InitialForm(defaultType: Option<string>, nowIso: string): (f: TxForm)
    ensures f.txType == (if defaultType.Some? then defaultType.value else "Expense")
    ensures f.category == "Food"
    ensures f.subject == "" && f.amount == "" && f.notes == ""
    ensures 'T' !in f.date && |f.date| <= |nowIso| && f.date == nowIso[..|f.date|]
    ensures |f.date| < |nowIso| ==> nowIso[|f.date|] == 'T'
  {
    TxForm(if defaultType.Some? then defaultType.value else "Expense", "Food", "", "", BeforeT(nowIso), "")
  }

  /** `handleChange`'s updater. */
  function Change(form: TxForm, f: FormField, value: string): (r: TxForm)
    ensures f == TypeField && value == "Income" ==>
      && r.txType == "Income" && r.category == "Other"
      && forall g :: g != TypeField && g != CategoryField ==> FieldValue(r, g) == FieldValue(form, g)
    ensures !(f == TypeField && value == "Income") ==>
      && FieldValue(r, f) == value
      && forall g :: g != f ==> FieldValue(r, g) == FieldValue(form, g)
  {
    if f == TypeField && value == "Income" then form.(txType := "Income", category := "Other")
    else
      match f
      case TypeField => form.(txType := value)
      case CategoryField => form.(category := value)
      case SubjectField => form.(subject := value)
      case AmountField => form.(amount := value)
      case DateField => form.(date := value)
      case NotesField => form.(notes := value)
  }

  /** Switching back to "Expense" does not restore the category: an income
      turned expense stays in "Other" until the user picks again. */
  lemma IncomeThenExpenseStaysOther(form: TxForm)
    ensures Change(Change(form, TypeField, "Income"), TypeField, "Expense").category == "Other"
    ensures Change(Change(form, TypeField, "Income"), TypeField, "Expense").txType == "Expense"
  {
  }

  /** The observable effects of a submit, in order. */
  datatype Effect = ToastError(message: string) | Post(body: TxForm) | ToastSuccess(message: string) | OnSuccess | OnClose

  const NegativeAmount: string := "Amount cannot be negative."
  const Added: string := "Transaction added successfully!"
  const SomethingWrong: string := "Something went wrong. Please try again."

  /** `handleSubmit` over the current form. `hasOnSuccess` says whether the
      optional callback was passed; `reply` is the outcome of the POST. */
  method Submit(form: TxForm, hasOnSuccess: bool, reply: Reply<()>) returns (effects: seq<Effect>)
    ensures IsNegative(form.amount) ==> effects == [ToastError(NegativeAmount)]
    ensures !IsNegative(form.amount) ==> |effects| >= 2 && effects[0] == Post(form)
    ensures Post(form) in effects <==> !IsNegative(form.amount)
    ensures OnClose in effects <==> !IsNegative(form.amount) && reply.Ok?
    ensures OnSuccess in effects <==> !IsNegative(form.amount) && reply.Ok? && hasOnSuccess
    ensures OnClose in effects ==> effects[|effects| - 1] == OnClose
    ensures !IsNegative(form.amount) && reply.Fail? ==> effects == [Post(form), ToastError(SomethingWrong)]
    ensures !IsNegative(form.amount) && reply.Ok? ==>
      effects == [Post(form), ToastSuccess(Added)] + (if hasOnSuccess then [OnSuccess] else []) + [OnClose]
  {
    if IsNegative(form.amount) {
      return [ToastError(NegativeAmount)];
    }
    effects := [Post(form)];
    if reply.Fail? {
      effects := effects + [ToastError(SomethingWrong)];
      return;
    }
    effects := effects + [ToastSuccess(Added)];
    if hasOnSuccess {
      effects := effects + [OnSuccess];
    }
    effects := effects + [OnClose];
  }

  /** The empty amount of a fresh form passes `handleSubmit`'s only check. */
  lemma EmptyAmountPasses(defaultType: Option<string>, nowIso: string)
    ensures !IsNegative(InitialForm(defaultType, nowIso).amount)
  {
  }

  /** The modal's state: the form it edits. */
  class Modal {
    var form: TxForm

    constructor (defaultType: Option<string>, nowIso: string)
      ensures form == InitialForm(defaultType, nowIso)
    {
      form := InitialForm(defaultType, nowIso);
    }

    method HandleChange(f: FormField, value: string)
      modifies this
      ensures form == Change(old(form), f, value)
    {
      form := Change(form, f, value);
    }
  }
}

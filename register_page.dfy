/** The registration page: a four-field form, a local validation step that
    runs before anything is sent, and the message shown above the form. */
module RegisterPage {
  import opened Remote
  import opened AuthSlice

  const Mismatch: string := "Passwords do not match"
  const TooShort: string := "Password must be at least 8 characters"
  const MinPasswordLength: nat := 8

  /** The `name` attributes of the form's four inputs. */
  datatype FormField = Username | Email | Password | PasswordConfirmation

  const EmptyForm: RegisterData := RegisterData("", "", "", "")

  function FieldValue(form: RegisterData, f: FormField): string
  {
    match f
    case Username => form.username
    case Email => form.email
    case Password => form.password
    case PasswordConfirmation => form.passwordConfirmation
  }

  /** `handleChange`: `{ ...prev, [name]: value }`. */
  function UpdateField(form: RegisterData, f: FormField, value: string): (r: RegisterData)
    ensures FieldValue(r, f) == value
    ensures forall g :: g != f ==> FieldValue(r, g) == FieldValue(form, g)
  {
    match f
    case Username => form.(username := value)
    case Email => form.(email := value)
    case Password => form.(password := value)
    case PasswordConfirmation => form.(passwordConfirmation := value)
  }

  /** The two checks of `handleSubmit`, in source order: the confirmation
      first, then the length. `None` means the form may be sent. */
  function Validate(form: RegisterData): (r: Option<string>)
    ensures form.password != form.passwordConfirmation ==> r == Some(Mismatch)
    ensures form.password == form.passwordConfirmation && |form.password| < MinPasswordLength ==> r == Some(TooShort)
    ensures r == None <==> form.password == form.passwordConfirmation && |form.password| >= MinPasswordLength
  {
    if form.password != form.passwordConfirmation then Some(Mismatch)
    else if |form.password| < MinPasswordLength then Some(TooShort)
    else None
  }

  /** A short password that does not match its confirmation reports the mismatch. */
  lemma MismatchReportedBeforeLength(form: RegisterData)
    requires |form.password| < MinPasswordLength
    requires form.password != form.passwordConfirmation
    ensures Validate(form) == Some(Mismatch)
  {
  }

  /** The banner: `(error || validationError) && (validationError || error)`. */
  function Banner(validationError: string, storeError: Option<string>): (r: Option<string>)
    ensures validationError != "" ==> r == Some(validationError)
    ensures validationError == "" && storeError.Some? && storeError.value != "" ==> r == storeError
    ensures r == None <==> validationError == "" && (storeError.None? || storeError.value == "")
  {
    if validationError != "" then Some(validationError)
    else if storeError.Some? && storeError.value != "" then storeError
    else None
  }

  class Page {
    var form: RegisterData
    var validationError: string

    constructor ()
      ensures form == EmptyForm && validationError == ""
    {
      form := EmptyForm;
      validationError := "";
    }

    /** The mount effect: `dispatch(clearError())`. */
    method Mount(store: AuthStore)
      requires store.Valid()
      modifies store`state
      ensures store.Valid()
      ensures store.state == old(store.state).(error := None)
    {
      store.Dispatch(ClearError);
    }

    method HandleChange(f: FormField, value: string)
      modifies this`form
      ensures form == UpdateField(old(form), f, value)
    {
      form := UpdateField(form, f, value);
    }

    /** `handleSubmit`. `sent` is the data the `register` thunk was
        dispatched with, if it was; `navigated` says whether the router was
        sent to `/login?registered=true`. */
    method HandleSubmit(store: AuthStore, reply: Reply<()>) returns (sent: Option<RegisterData>, navigated: bool)
      requires store.Valid()
      modifies this`validationError, store
      ensures store.Valid()
      ensures form == old(form)
      ensures Validate(form).Some? ==>
        && validationError == Validate(form).value
        && sent == None && !navigated
        && store.state == old(store.state) && store.storage == old(store.storage)
      ensures Validate(form).None? ==>
        && validationError == ""
        && sent == Some(form)
        && (navigated <==> reply.Ok?)
        && store.storage == old(store.storage)
        && store.state == old(store.state).(isLoading := false,
                                            error := if reply.Ok? then None else Some(MessageOr(reply.msg, "Registration failed")))
    {
      validationError := "";
      if form.password != form.passwordConfirmation {
        validationError := Mismatch;
        return None, false;
      }
      if |form.password| < MinPasswordLength {
        validationError := TooShort;
        return None, false;
      }
      sent := Some(form);
      var outcome := store.Register(form, reply);
      navigated := outcome.Fulfilled?;
    }
  }
}

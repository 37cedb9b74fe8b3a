/** The "Add Monthly Budget" modal: a two-field form that starts on the
    current month, is overwritten by the stored budget when one is fetched,
    and is posted with the month turned into the first day of that month. */
module AddMonthlyBudgetModal {
  import opened Remote

  datatype MonthlyBudget = MonthlyBudget(amount: string, month: string)

  /** The `name` attributes of the two inputs. */
  datatype FormField = AmountField | MonthField

  /** `s.slice(0, 7)`: at most the first seven characters. */
  function FirstSeven(s: string): (r: string)
    ensures |r| == if |s| < 7 then |s| else 7
    ensures r == s[..|r|]
  {
    if |s| < 7 then s else s[..7]
  }

  /** The form before any fetch; `nowIso` is the ISO rendering of the
      current time, whose first seven characters are `YYYY-MM`. */
  function InitialBudget(nowIso: string): (b: MonthlyBudget)
    ensures b.amount == ""
    ensures |nowIso| >= 7 ==> b.month == nowIso[..7]
  {
    MonthlyBudget("", FirstSeven(nowIso))
  }

  /** `handleChange`'s updater. */
  function Change(b: MonthlyBudget, f: FormField, value: string): (r: MonthlyBudget)
    ensures f == AmountField ==> r.amount == value && r.month == b.month
    ensures f == MonthField ==> r.month == value && r.amount == b.amount
  {
    match f
    case AmountField => b.(amount := value)
    case MonthField => b.(month := value)
  }

  /** The body that `handleSubmit` posts: the form with `-01` after the month. */
  function Payload(b: MonthlyBudget): (r: MonthlyBudget)
    ensures r.amount == b.amount
    ensures |r.month| == |b.month| + 3
    ensures r.month[..|b.month|] == b.month && r.month[|b.month|..] == "-01"
  {
    MonthlyBudget(b.amount, b.month + "-01")
  }

  /** Dropping the three characters of a day suffix. */
  function WithoutDay(m: string): (r: string)
    ensures |m| >= 3 ==> |r| == |m| - 3
  {
    if |m| >= 3 then m[..|m| - 3] else m
  }

  /** The form is recoverable from the payload. */
  lemma PayloadIsInvertible(b: MonthlyBudget)
    ensures MonthlyBudget(Payload(b).amount, WithoutDay(Payload(b).month)) == b
  {
    assert (b.month + "-01")[..|b.month|] == b.month;
  }

  /** No normalisation is done: a month that already carries a day gets a
      second suffix, so building the payload twice is not the same as once.
      In the browser the month input has type `month` and is required, so
      such a month shows as empty and the submit is blocked there. */
  lemma PayloadNotIdempotent(b: MonthlyBudget)
    ensures Payload(Payload(b)).month == b.month + "-01-01"
    ensures Payload(Payload(b)) != Payload(b)
  {
    assert |Payload(Payload(b)).month| == |Payload(b).month| + 3;
  }

  /** A month taken from the clock becomes a ten-character `YYYY-MM-01`. */
  lemma DefaultMonthPayload(nowIso: string)
    requires |nowIso| >= 7
    ensures |Payload(InitialBudget(nowIso)).month| == 10
    ensures Payload(InitialBudget(nowIso)).month == nowIso[..7] + "-01"
  {
  }

  /** The title the component renders, or `None` when it renders nothing. */
  function Title(isOpen: bool, isEditing: bool): (r: Option<string>)
    ensures r.None? <==> !isOpen
    ensures isOpen ==> r.value == (if isEditing then "Update Monthly Budget" else "Add Monthly Budget")
  {
    if !isOpen then None
    else if isEditing then Some("Update Monthly Budget")
    else Some("Add Monthly Budget")
  }

  /** What a request returned: a response with a status (and, for the GET,
      the stored budget), or a thrown error. */
  datatype FetchReply = Fetched(status: int, stored: MonthlyBudget) | FetchThrew
  datatype PostReply = Answered(status: int) | PostThrew

  datatype Effect = Post(body: MonthlyBudget) | ToastSuccess(message: string) | ToastError(message: string) | OnSuccess | OnClose

  const Updated: string := "Budget updated successfully!"
  const Failed: string := "Failed to create or update the budget. Please try again."

  /** `handleSubmit` over the current form. The success toast needs status
      200, the callbacks only need a POST that did not throw. */
  method Submit(b: MonthlyBudget, hasOnSuccess: bool, reply: PostReply) returns (effects: seq<Effect>)
    ensures |effects| >= 2 && effects[0] == Post(Payload(b))
    ensures ToastSuccess(Updated) in effects <==> reply.Answered? && reply.status == 200
    ensures OnClose in effects <==> reply.Answered?
    ensures OnSuccess in effects <==> reply.Answered? && hasOnSuccess
    ensures reply.Answered? ==> effects[|effects| - 1] == OnClose
    ensures reply.PostThrew? ==> effects == [Post(Payload(b)), ToastError(Failed)]
    ensures reply.Answered? ==>
      effects == [Post(Payload(b))] + (if reply.status == 200 then [ToastSuccess(Updated)] else [])
                 + (if hasOnSuccess then [OnSuccess] else []) + [OnClose]
  {
    effects := [Post(Payload(b))];
    match reply
    case PostThrew =>
      effects := effects + [ToastError(Failed)];
    case Answered(status) =>
      if status == 200 {
        effects := effects + [ToastSuccess(Updated)];
      }
      if hasOnSuccess {
        effects := effects + [OnSuccess];
      }
      effects := effects + [OnClose];
  }

  /** The modal's state. */
  class Modal {
    var budgetData: MonthlyBudget
    var isEditing: bool

    constructor (nowIso: string)
      ensures budgetData == InitialBudget(nowIso) && !isEditing
    {
      budgetData := InitialBudget(nowIso);
      isEditing := false;
    }

    /** The mount effect `fetchBudget`. */
    method FetchBudget(reply: FetchReply)
      modifies this
      ensures reply.Fetched? && reply.status == 200 ==> budgetData == reply.stored && isEditing
      ensures !(reply.Fetched? && reply.status == 200) ==>
        budgetData == old(budgetData) && isEditing == old(isEditing)
    {
      if reply.Fetched? && reply.status == 200 {
        budgetData := MonthlyBudget(reply.stored.amount, reply.stored.month);
        isEditing := true;
      }
    }

    method HandleChange(f: FormField, value: string)
      modifies this`budgetData
      ensures budgetData == Change(old(budgetData), f, value)
    {
      budgetData := Change(budgetData, f, value);
    }
  }
}

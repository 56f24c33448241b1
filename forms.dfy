/** Client-side form checks shared by the pages, and the messages they raise. */
module Forms {
  import opened Domain

  /** A check that stops a submission before any request is sent. */
  datatype FormError =
    | MemberNameRequired
    | DuplicateMemberName
    | AllFieldsRequired
    | PasswordsDoNotMatch
    | PasswordTooShort

  /** The toast text of each check. */
  function Message(e: FormError): (r: string)
    ensures r != ""
  {
    match e
    case MemberNameRequired => "Member name is required"
    case DuplicateMemberName => "A member with this name already exists"
    case AllFieldsRequired => "All fields are required"
    case PasswordsDoNotMatch => "Passwords do not match"
    case PasswordTooShort => "Password must be at least 6 characters long"
  }

  /** Each check has its own text, so the toast tells the user which check failed. */
  lemma MessageIdentifiesCheck(e1: FormError, e2: FormError)
    ensures Message(e1) == Message(e2) <==> e1 == e2
  {
  }

  /** The categories the expense form offers in its drop-down. */
  const ExpenseCategories: seq<string> :=
    ["Food", "Transportation", "Housing", "Utilities", "Healthcare", "Entertainment", "Shopping", "Others"]

  /** The add-expense check (the same on the dashboard and on the member page):
      it tests only that no field is empty. */
  function CheckExpenseForm(f: ExpenseForm): (r: Option<FormError>)
    ensures r == None <==> f.description != "" && f.amount != "" && f.category != ""
    ensures r != None ==> r == Some(AllFieldsRequired)
  {
    if f.description == "" || f.amount == "" || f.category == "" then Some(AllFieldsRequired) else None
  }

  /** Emptiness is all the check tests: a zero amount and a category outside
      the drop-down's list both pass. */
  lemma ExpenseCheckIgnoresContent()
    ensures exists f :: CheckExpenseForm(f) == None && f.amount == "0" && f.category !in ExpenseCategories
  {
    var f := ExpenseForm("Tea", "0", "Misc");
    assert f.category !in ExpenseCategories;
    assert CheckExpenseForm(f) == None;
  }

  /** Two forms that agree on which fields are empty get the same verdict. */
  lemma ExpenseCheckSeesOnlyEmptiness(f: ExpenseForm, g: ExpenseForm)
    requires (f.description == "") == (g.description == "")
    requires (f.amount == "") == (g.amount == "")
    requires (f.category == "") == (g.category == "")
    ensures CheckExpenseForm(f) == CheckExpenseForm(g)
  {
  }
}

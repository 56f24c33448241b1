/** The entities the client receives from the family API, the forms it
    edits, the requests it sends and the outcome of each request. */
module Domain {

  datatype Option<T> = None | Some(value: T)

  /** Outcome of one API call: the response body, or a failure carrying the
      server's `message` when the server sent one. */
  datatype ApiResult<T> = Ok(body: T) | Err(message: Option<string>)

  /** Money is held exactly (`real`); the two-decimal display is presentation. */
  datatype Expense = Expense(id: string, description: string, amount: real, category: string, date: string)

  datatype Member = Member(
    id: string,
    name: string,
    isEarning: bool,
    salary: real,
    totalSpent: real,
    expenses: seq<Expense>)

  /** The family aggregate; `totalIncome` and `totalExpenses` are the server's figures. */
  datatype Family = Family(
    id: string,
    name: string,
    members: seq<Member>,
    totalIncome: real,
    totalExpenses: real)

  /** The family record kept in the session after login or registration. */
  datatype FamilySummary = FamilySummary(id: string, name: string)

  /** Body of a login request, and the login form itself. */
  datatype Credentials = Credentials(name: string, password: string)

  /** The add-member form buffer and the body of a member create/update request. */
  datatype MemberForm = MemberForm(name: string, isEarning: bool, salary: real)

  /** The edit-member buffer: the member's id and the fields being edited. */
  datatype EditForm = EditForm(id: string, name: string, isEarning: bool, salary: real)

  /** The add-expense form buffer: three text inputs, the amount still a string. */
  datatype ExpenseForm = ExpenseForm(description: string, amount: string, category: string)

  const EmptyMemberForm := MemberForm("", false, 0.0)
  const EmptyEditForm := EditForm("", "", false, 0.0)
  const EmptyExpenseForm := ExpenseForm("", "", "")

  /** The requests the client can send. */
  datatype Request =
    | PostLogin(credentials: Credentials)
    | PostRegister(credentials: Credentials)
    | GetFamily(familyId: string)
    | PostMember(familyId: string, member: MemberForm)
    | PutMember(familyId: string, memberId: string, member: MemberForm)
    | RemoveMember(familyId: string, memberId: string)
    | PostExpense(familyId: string, memberId: string, expense: ExpenseForm)
    | RemoveExpense(familyId: string, memberId: string, expenseId: string)

  /** The toast a handler raises. */
  datatype Notice = Success(text: string) | Failure(text: string)

  /** `error.response?.data?.message || fallback`: the server's message when it
      sent a non-empty one, else the operation's generic text. */
  function ErrorText(message: Option<string>, fallback: string): (r: string)
    ensures message.Some? && message.value != "" ==> r == message.value
    ensures message.None? || message.value == "" ==> r == fallback
    ensures fallback != "" ==> r != ""
  {
    if message.Some? && message.value != "" then message.value else fallback
  }
}

/** The page listing one member's expenses, reached by the route
    `/family/:familyId/member/:memberId`. */
module MemberExpenses {
  import opened Domain
  import opened Forms

  /** `members.find(m => m.id === id)`: the first member with that id, if any. */
  function FindMember(members: seq<Member>, id: string): (r: Option<Member>)
    ensures r.None? <==> forall i :: 0 <= i < |members| ==> members[i].id != id
    ensures r.Some? ==>
              exists i :: 0 <= i < |members| && members[i] == r.value && r.value.id == id
                          && forall j :: 0 <= j < i ==> members[j].id != id
  {
    if members == [] then None
    else if members[0].id == id then Some(members[0])
    else
      var r := FindMember(members[1..], id);
      if r.Some? then
        ghost var i :| 0 <= i < |members| - 1 && members[1..][i] == r.value && r.value.id == id
                       && forall j :: 0 <= j < i ==> members[1..][j].id != id;
        assert members[i + 1] == r.value;
        r
      else r
  }

  const AddedText := "Expense added successfully!"
  const AddFailedText := "Error adding expense"
  const DeletedText := "Expense deleted successfully!"
  const DeleteFailedText := "Error deleting expense"

  class MemberExpensesPage {
    const familyId: string
    const memberId: string
    var family: Option<Family>
    var member: Option<Member>
    var openDialog: bool
    var expenseData: ExpenseForm

    /** `member` is always the lookup of the route's member in the current snapshot. */
    ghost predicate Valid()
      reads this
    {
      member == if family.Some? then FindMember(family.value.members, memberId) else None
    }

    /** The page shows "Loading..." until a snapshot holding the member arrived. */
    function Loading(): (r: bool)
      reads this
      ensures Valid() ==>
                (r <==> family.None? || forall i :: 0 <= i < |family.value.members| ==> family.value.members[i].id != memberId)
    {
      family.None? || member.None?
    }

    constructor(familyId: string, memberId: string)
      ensures Valid() && Loading()
      ensures this.familyId == familyId && this.memberId == memberId
      ensures family.None? && member.None? && !openDialog && expenseData == EmptyExpenseForm
    {
      this.familyId := familyId;
      this.memberId := memberId;
      family := None;
      member := None;
      openDialog := false;
      expenseData := EmptyExpenseForm;
    }

    /** `fetchFamilyDetails`: on success the snapshot is replaced and the member
        looked up in it; the page stays loading when no member has the route's
        id. A failure leaves everything as it was and goes back to the dashboard. */
    method FetchFamily(response: ApiResult<Family>) returns (request: Request, toDashboard: bool)
      requires Valid()
      modifies this
      ensures Valid()
      ensures request == GetFamily(familyId)
      ensures toDashboard <==> response.Err?
      ensures response.Ok? ==> family == Some(response.body)
      ensures response.Ok? ==>
                (Loading() <==> forall i :: 0 <= i < |response.body.members| ==> response.body.members[i].id != memberId)
      ensures response.Ok? ==> member.Some? ==> member.value.id == memberId && member.value in response.body.members
      ensures response.Err? ==> family == old(family) && member == old(member)
      ensures openDialog == old(openDialog) && expenseData == old(expenseData)
    {
      request := GetFamily(familyId);
      match response {
        case Ok(f) =>
          family := Some(f);
          member := FindMember(f.members, memberId);
          toDashboard := false;
        case Err(_) =>
          toDashboard := true;
      }
    }

    /** The "Add Expense" button. */
    method OpenDialog()
      requires Valid() && !Loading()
      modifies this`openDialog
      ensures Valid()
      ensures openDialog
    {
      openDialog := true;
    }

    /** The dialog's Cancel button or closing it. */
    method CloseDialog()
      requires Valid()
      modifies this`openDialog
      ensures Valid()
      ensures !openDialog
    {
      openDialog := false;
    }

    /** Typing into the dialog's fields. */
    method EditExpense(f: ExpenseForm)
      requires Valid()
      modifies this`expenseData
      ensures Valid()
      ensures expenseData == f
    {
      expenseData := f;
    }

    /** `handleAddExpense`: nothing is sent while a field is empty; on success the
        dialog closes, the buffer is emptied and a re-fetch follows; on failure
        the dialog and the buffer are left for a retry. */
    method AddExpense(response: ApiResult<()>) returns (request: Option<Request>, notice: Notice, refetch: bool)
      requires Valid() && !Loading() && openDialog
      modifies this`openDialog, this`expenseData
      ensures Valid()
      ensures request.Some? <==> CheckExpenseForm(old(expenseData)) == None
      ensures request.Some? ==> request.value == PostExpense(familyId, memberId, old(expenseData))
      ensures refetch <==> request.Some? && response.Ok?
      ensures refetch ==> !openDialog && expenseData == EmptyExpenseForm && notice == Success(AddedText)
      ensures !refetch ==> openDialog == old(openDialog) && expenseData == old(expenseData)
      ensures request.None? ==> notice == Failure(Message(AllFieldsRequired))
      ensures request.Some? && response.Err? ==> notice == Failure(AddFailedText)
    {
      var check := CheckExpenseForm(expenseData);
      if check.Some? {
        request, notice, refetch := None, Failure(Message(check.value)), false;
        return;
      }
      request := Some(PostExpense(familyId, memberId, expenseData));
      if response.Ok? {
        openDialog := false;
        expenseData := EmptyExpenseForm;
        notice, refetch := Success(AddedText), true;
      } else {
        notice, refetch := Failure(AddFailedText), false;
      }
    }

    /** `handleDeleteExpense`: no confirmation step; the request is sent at once
        and a re-fetch follows only on success. The page state is untouched. */
    method DeleteExpense(expenseId: string, response: ApiResult<()>) returns (request: Request, notice: Notice, refetch: bool)
      requires Valid() && !Loading()
      ensures request == RemoveExpense(familyId, memberId, expenseId)
      ensures refetch <==> response.Ok?
      ensures notice == if response.Ok? then Success(DeletedText) else Failure(DeleteFailedText)
    {
      request := RemoveExpense(familyId, memberId, expenseId);
      refetch := response.Ok?;
      notice := if response.Ok? then Success(DeletedText) else Failure(DeleteFailedText);
    }
  }
}

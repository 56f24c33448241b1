/** The dashboard: the family snapshot, the dialogs and form buffers around it,
    and the handlers that validate, send a request and update that state. */
module Dashboard {
  import opened Domain
  import opened Forms
  import opened MemberChecks
  import opened Session

  /** Every piece of the page's state, as one value. */
  datatype DashboardState = DashboardState(
    family: Option<Family>,
    openDialog: bool,
    openExpenseDialog: bool,
    selectedMember: Option<string>,
    expandedMember: Option<string>,
    memberData: MemberForm,
    expenseData: ExpenseForm,
    openEditDialog: bool,
    editMemberData: EditForm,
    selectedMemberForExpenses: Option<Member>,
    openExpenseViewDialog: bool,
    openDeleteDialog: bool,
    memberToDelete: Option<Member>)

  const InitialState :=
    DashboardState(None, false, false, None, None, EmptyMemberForm, EmptyExpenseForm,
                   false, EmptyEditForm, None, false, false, None)

  /** The warning the delete confirmation shows: the number of expenses that
      go with the member, when there are any. */
  function ExpenseWarning(m: Member): (r: Option<nat>)
    ensures r.Some? <==> |m.expenses| > 0
    ensures r.Some? ==> r.value == |m.expenses|
  {
    if |m.expenses| > 0 then Some(|m.expenses|) else None
  }

  const MemberAddedText := "Member added successfully!"
  const MemberAddFailedText := "Error adding member"
  const ExpenseAddedText := "Expense added successfully!"
  const ExpenseAddFailedText := "Error adding expense"
  const MemberDeletedText := "Member deleted successfully!"
  const MemberDeleteFallback := "Error deleting member. Please try again."
  const ExpenseDeletedText := "Expense deleted successfully!"
  const ExpenseDeleteFailedText := "Error deleting expense"
  const MemberUpdatedText := "Member updated successfully!"
  const MemberUpdateFailedText := "Error updating member"

  class DashboardPage {
    var family: Option<Family>
    var openDialog: bool
    var openExpenseDialog: bool
    var selectedMember: Option<string>
    var expandedMember: Option<string>
    var memberData: MemberForm
    var expenseData: ExpenseForm
    var openEditDialog: bool
    var editMemberData: EditForm
    var selectedMemberForExpenses: Option<Member>
    var openExpenseViewDialog: bool
    var openDeleteDialog: bool
    var memberToDelete: Option<Member>
    const store: SessionStore

    function State(): DashboardState
      reads this
    {
      DashboardState(family, openDialog, openExpenseDialog, selectedMember, expandedMember,
                     memberData, expenseData, openEditDialog, editMemberData,
                     selectedMemberForExpenses, openExpenseViewDialog, openDeleteDialog, memberToDelete)
    }

    predicate AnyDialogOpen()
      reads this
    {
      openDialog || openExpenseDialog || openEditDialog || openExpenseViewDialog || openDeleteDialog
    }

    /** The page's invariant. The confirmation dialog is open exactly while a
        member is pending deletion; the expense dialogs always have their member;
        no handler ever expands a member card; and the dialogs, which are only
        rendered with the family, are closed until the family has loaded. */
    ghost predicate Valid()
      reads this
    {
      && (openDeleteDialog <==> memberToDelete.Some?)
      && (openExpenseDialog ==> selectedMember.Some?)
      && (openExpenseViewDialog ==> selectedMemberForExpenses.Some?)
      && expandedMember.None?
      && (AnyDialogOpen() ==> family.Some?)
    }

    constructor(store: SessionStore)
      ensures Valid() && State() == InitialState && this.store == store
    {
      family := None;
      openDialog, openExpenseDialog := false, false;
      selectedMember, expandedMember := None, None;
      memberData, expenseData := EmptyMemberForm, EmptyExpenseForm;
      openEditDialog, editMemberData := false, EmptyEditForm;
      selectedMemberForExpenses, openExpenseViewDialog := None, false;
      openDeleteDialog, memberToDelete := false, None;
      this.store := store;
    }

    /** `fetchFamilyDetails`: with no session nothing is sent and the user is sent
        to the login page; otherwise the family is fetched and, on success,
        replaces the snapshot wholesale. A failed fetch changes nothing here and
        also leads to the login page. */
    method FetchFamily(response: ApiResult<Family>) returns (request: Option<Request>, toLogin: bool)
      requires Valid()
      modifies this`family
      ensures Valid()
      ensures request.Some? <==> store.HasSession()
      ensures request.Some? ==> request.value == GetFamily(store.family.value.id)
      ensures toLogin <==> request.None? || response.Err?
      ensures State() == if request.Some? && response.Ok? then old(State()).(family := Some(response.body))
                         else old(State())
    {
      if !store.HasSession() {
        return None, true;
      }
      request := Some(GetFamily(store.family.value.id));
      match response {
        case Ok(f) =>
          family := Some(f);
          toLogin := false;
        case Err(_) =>
          toLogin := true;
      }
    }

    /** `handleLogout`: both stored items are removed, so no session remains. */
    method Logout()
      requires Valid()
      modifies store
      ensures Valid()
      ensures store.token == None && store.family == None
      ensures !store.HasSession()
    {
      store.Clear();
    }

    // ---- Add member -------------------------------------------------------

    /** The "Add Member" button. */
    method OpenAddMember()
      requires Valid() && family.Some?
      modifies this`openDialog
      ensures Valid() && State() == old(State()).(openDialog := true)
    {
      openDialog := true;
    }

    /** Cancel, or closing the add-member dialog: the buffer is kept. */
    method CloseAddMember()
      requires Valid()
      modifies this`openDialog
      ensures Valid() && State() == old(State()).(openDialog := false)
    {
      openDialog := false;
    }

    /** Typing into the add-member dialog. */
    method EditNewMember(f: MemberForm)
      requires Valid()
      modifies this`memberData
      ensures Valid() && State() == old(State()).(memberData := f)
    {
      memberData := f;
    }

    /** `handleAddMember`: an empty name, or a name an existing member already
        carries in any letter case, stops it before any request. On success the
        dialog closes, the buffer is reset and a re-fetch follows; on failure
        nothing changes. The snapshot itself is never touched here. */
    method AddMember(response: ApiResult<()>) returns (request: Option<Request>, notice: Notice, refetch: bool)
      requires Valid() && openDialog
      modifies this`openDialog, this`memberData
      ensures Valid()
      ensures var check := CheckNewMember(old(family).value.members, old(memberData).name);
              && (request.Some? <==> check == None)
              && (check.Some? ==> notice == Failure(Message(check.value)))
      ensures request.Some? ==> request.value == PostMember(family.value.id, old(memberData))
      ensures refetch <==> request.Some? && response.Ok?
      ensures request.Some? && response.Err? ==> notice == Failure(MemberAddFailedText)
      ensures State() == if refetch then old(State()).(openDialog := false, memberData := EmptyMemberForm)
                         else old(State())
      ensures refetch ==> notice == Success(MemberAddedText)
    {
      var check := CheckNewMember(family.value.members, memberData.name);
      if check.Some? {
        return None, Failure(Message(check.value)), false;
      }
      request := Some(PostMember(family.value.id, memberData));
      if response.Ok? {
        openDialog := false;
        memberData := EmptyMemberForm;
        notice, refetch := Success(MemberAddedText), true;
      } else {
        notice, refetch := Failure(MemberAddFailedText), false;
      }
    }

    // ---- Add expense ------------------------------------------------------

    /** A card's "Add Expense" button: the card's member is selected and the dialog opens. */
    method OpenAddExpense(memberId: string)
      requires Valid() && family.Some?
      modifies this`selectedMember, this`openExpenseDialog
      ensures Valid()
      ensures State() == old(State()).(selectedMember := Some(memberId), openExpenseDialog := true)
    {
      selectedMember := Some(memberId);
      openExpenseDialog := true;
    }

    /** Cancel, or closing the add-expense dialog: selection and buffer are kept. */
    method CloseAddExpense()
      requires Valid()
      modifies this`openExpenseDialog
      ensures Valid() && State() == old(State()).(openExpenseDialog := false)
    {
      openExpenseDialog := false;
    }

    /** Typing into the add-expense dialog. */
    method EditExpense(f: ExpenseForm)
      requires Valid()
      modifies this`expenseData
      ensures Valid() && State() == old(State()).(expenseData := f)
    {
      expenseData := f;
    }

    /** `handleAddExpense`: an empty description, amount or category stops it
        before any request. On success the dialog closes, the buffer goes back
        to three empty strings and a re-fetch follows; on failure nothing changes. */
    method AddExpense(response: ApiResult<()>) returns (request: Option<Request>, notice: Notice, refetch: bool)
      requires Valid() && openExpenseDialog
      modifies this`openExpenseDialog, this`expenseData
      ensures Valid()
      ensures request.Some? <==> CheckExpenseForm(old(expenseData)) == None
      ensures request.None? ==> notice == Failure(Message(AllFieldsRequired))
      ensures request.Some? ==>
                request.value == PostExpense(family.value.id, selectedMember.value, old(expenseData))
      ensures refetch <==> request.Some? && response.Ok?
      ensures request.Some? && response.Err? ==> notice == Failure(ExpenseAddFailedText)
      ensures State() == if refetch then old(State()).(openExpenseDialog := false, expenseData := EmptyExpenseForm)
                         else old(State())
      ensures refetch ==> notice == Success(ExpenseAddedText)
    {
      var check := CheckExpenseForm(expenseData);
      if check.Some? {
        return None, Failure(Message(check.value)), false;
      }
      request := Some(PostExpense(family.value.id, selectedMember.value, expenseData));
      if response.Ok? {
        openExpenseDialog := false;
        expenseData := EmptyExpenseForm;
        notice, refetch := Success(ExpenseAddedText), true;
      } else {
        notice, refetch := Failure(ExpenseAddFailedText), false;
      }
    }

    // ---- Delete expense ---------------------------------------------------

    /** `handleDeleteExpense`: no confirmation; the request goes out at once and a
        re-fetch follows only on success. The page state is untouched. */
    method DeleteExpense(memberId: string, expenseId: string, response: ApiResult<()>)
      returns (request: Request, notice: Notice, refetch: bool)
      requires Valid() && family.Some?
      ensures request == RemoveExpense(family.value.id, memberId, expenseId)
      ensures refetch <==> response.Ok?
      ensures notice == if response.Ok? then Success(ExpenseDeletedText) else Failure(ExpenseDeleteFailedText)
    {
      request := RemoveExpense(family.value.id, memberId, expenseId);
      refetch := response.Ok?;
      notice := if response.Ok? then Success(ExpenseDeletedText) else Failure(ExpenseDeleteFailedText);
    }

    // ---- Expense list dialog ----------------------------------------------

    /** `handleViewExpenses`: the member's expense list opens. */
    method ViewExpenses(m: Member)
      requires Valid() && family.Some?
      modifies this`selectedMemberForExpenses, this`openExpenseViewDialog
      ensures Valid()
      ensures State() == old(State()).(selectedMemberForExpenses := Some(m), openExpenseViewDialog := true)
    {
      selectedMemberForExpenses := Some(m);
      openExpenseViewDialog := true;
    }

    /** Dismissing the expense list (backdrop or Escape) also forgets the member. */
    method DismissExpenses()
      requires Valid()
      modifies this`selectedMemberForExpenses, this`openExpenseViewDialog
      ensures Valid()
      ensures State() == old(State()).(selectedMemberForExpenses := None, openExpenseViewDialog := false)
    {
      openExpenseViewDialog := false;
      selectedMemberForExpenses := None;
    }

    /** The list's Close button only closes it. */
    method CloseExpenses()
      requires Valid()
      modifies this`openExpenseViewDialog
      ensures Valid() && State() == old(State()).(openExpenseViewDialog := false)
    {
      openExpenseViewDialog := false;
    }

    /** An expense's delete icon in the list: the list closes at once, whatever
        the outcome of the deletion it starts for the listed member. */
    method DeleteListedExpense(expenseId: string, response: ApiResult<()>)
      returns (request: Request, notice: Notice, refetch: bool)
      requires Valid() && openExpenseViewDialog
      modifies this`openExpenseViewDialog
      ensures Valid() && State() == old(State()).(openExpenseViewDialog := false)
      ensures request == RemoveExpense(family.value.id, old(selectedMemberForExpenses).value.id, expenseId)
      ensures refetch <==> response.Ok?
      ensures notice == if response.Ok? then Success(ExpenseDeletedText) else Failure(ExpenseDeleteFailedText)
    {
      request, notice, refetch := DeleteExpense(selectedMemberForExpenses.value.id, expenseId, response);
      openExpenseViewDialog := false;
    }

    // ---- Edit member ------------------------------------------------------

    /** `handleEditMember`: the buffer is loaded from the member and the dialog opens. */
    method EditMember(m: Member)
      requires Valid() && family.Some?
      modifies this`editMemberData, this`openEditDialog
      ensures Valid()
      ensures State() == old(State()).(editMemberData := EditForm(m.id, m.name, m.isEarning, m.salary),
                                       openEditDialog := true)
    {
      editMemberData := EditForm(m.id, m.name, m.isEarning, m.salary);
      openEditDialog := true;
    }

    /** Typing into the edit dialog. */
    method EditExistingMember(f: EditForm)
      requires Valid()
      modifies this`editMemberData
      ensures Valid() && State() == old(State()).(editMemberData := f)
    {
      editMemberData := f;
    }

    /** Cancel, or closing the edit dialog. */
    method CloseEditMember()
      requires Valid()
      modifies this`openEditDialog
      ensures Valid() && State() == old(State()).(openEditDialog := false)
    {
      openEditDialog := false;
    }

    /** `handleUpdateMember`: a name carried by another member (by id) in any
        letter case stops it; an empty name does not. The family id comes from
        the stored session, so without one the handler fails before sending.
        On success only the dialog closes and a re-fetch follows; on failure
        nothing changes. */
    method UpdateMember(response: ApiResult<()>) returns (request: Option<Request>, notice: Notice, refetch: bool)
      requires Valid() && openEditDialog
      modifies this`openEditDialog
      ensures Valid()
      ensures var e := old(editMemberData);
              var check := CheckMemberUpdate(family.value.members, e.id, e.name);
              && (request.Some? <==> check == None && store.family.Some?)
              && (check.Some? ==> notice == Failure(Message(check.value)))
              && (request.Some? ==>
                    request.value == PutMember(store.family.value.id, e.id, MemberForm(e.name, e.isEarning, e.salary)))
      ensures refetch <==> request.Some? && response.Ok?
      ensures refetch ==> notice == Success(MemberUpdatedText)
      ensures CheckMemberUpdate(family.value.members, editMemberData.id, editMemberData.name) == None && !refetch ==>
                notice == Failure(MemberUpdateFailedText)
      ensures State() == if refetch then old(State()).(openEditDialog := false) else old(State())
    {
      var check := CheckMemberUpdate(family.value.members, editMemberData.id, editMemberData.name);
      if check.Some? {
        return None, Failure(Message(check.value)), false;
      }
      if store.family.None? {
        // reading `id` of the missing family record throws inside the handler
        return None, Failure(MemberUpdateFailedText), false;
      }
      request := Some(PutMember(store.family.value.id, editMemberData.id,
                                MemberForm(editMemberData.name, editMemberData.isEarning, editMemberData.salary)));
      if response.Ok? {
        openEditDialog := false;
        notice, refetch := Success(MemberUpdatedText), true;
      } else {
        notice, refetch := Failure(MemberUpdateFailedText), false;
      }
    }

    // ---- Delete member ----------------------------------------------------

    /** `initiateDeleteMember`: the only way a member becomes pending deletion
        and the confirmation dialog opens. */
    method InitiateDeleteMember(m: Member)
      requires Valid() && family.Some?
      modifies this`memberToDelete, this`openDeleteDialog
      ensures Valid()
      ensures State() == old(State()).(memberToDelete := Some(m), openDeleteDialog := true)
    {
      memberToDelete := Some(m);
      openDeleteDialog := true;
    }

    /** The confirmation's Cancel button, or closing it: nothing is pending any more. */
    method CancelDeleteMember()
      requires Valid()
      modifies this`memberToDelete, this`openDeleteDialog
      ensures Valid()
      ensures State() == old(State()).(memberToDelete := None, openDeleteDialog := false)
    {
      openDeleteDialog := false;
      memberToDelete := None;
    }

    /** `handleDeleteMember`, fired only by the confirmation dialog's Delete button
        and only for the pending member. A non-empty response replaces the
        snapshot directly (no re-fetch) and collapses every card; an empty
        response or a failure leaves the snapshot as it was. Either way the
        dialog closes and nothing stays pending. */
    method ConfirmDeleteMember(response: ApiResult<Option<Family>>) returns (request: Option<Request>, notice: Notice)
      requires Valid() && openDeleteDialog
      modifies this`family, this`expandedMember, this`openDeleteDialog, this`memberToDelete
      ensures Valid()
      ensures request.Some? <==> store.family.Some?
      ensures request.Some? ==> request.value == RemoveMember(store.family.value.id, old(memberToDelete).value.id)
      ensures var deleted := request.Some? && response.Ok? && response.body.Some?;
              && State() == old(State()).(family := if deleted then Some(response.body.value) else old(family),
                                         expandedMember := if deleted then None else old(expandedMember),
                                         openDeleteDialog := false, memberToDelete := None)
              && (deleted ==> notice == Success(MemberDeletedText))
              && (!deleted && !(request.Some? && response.Err?) ==> notice == Failure(MemberDeleteFallback))
      ensures request.Some? && response.Err? ==> notice == Failure(ErrorText(response.message, MemberDeleteFallback))
    {
      var pending := memberToDelete.value;
      if store.family.None? {
        // reading `id` of the missing family record throws inside the handler
        request, notice := None, Failure(MemberDeleteFallback);
      } else {
        request := Some(RemoveMember(store.family.value.id, pending.id));
        match response {
          case Ok(body) =>
            if body.Some? {
              family := body;
              expandedMember := None;
              notice := Success(MemberDeletedText);
            } else {
              // an empty body is turned into a thrown error without a response
              notice := Failure(MemberDeleteFallback);
            }
          case Err(message) =>
            notice := Failure(ErrorText(message, MemberDeleteFallback));
        }
      }
      openDeleteDialog := false;
      memberToDelete := None;
    }
  }
}

/** The manager dashboard (`ManagerDashboardComponent`): the pending-expense
    count, the notification feed (newest first), the budget edit modal, the
    section switch and the status requests for approving or rejecting. */
module ManagerDashboard {
  import opened Common
  import opened Records
  import Session

  datatype NotificationKind = ExpenseNotice | BudgetNotice

  /** A notification in the manager's feed (`type` is 'expense' or 'budget'). */
  datatype NotificationItem = NotificationItem(message: string, kind: NotificationKind)

  /** The values of the budget edit form's controls. */
  datatype BudgetForm = BudgetForm(title: string, amountAllocated: Option<int>, departmentId: Option<int>)

  /** The `updateBudget(id, payload)` request sent to the budget service. */
  datatype BudgetUpdate = BudgetUpdate(id: int, payload: BudgetForm)

  /** The `updateExpenseStatus(id, status)` request sent to the expense service. */
  datatype StatusUpdate = StatusUpdate(id: int, status: string)

  const EmptyBudgetForm := BudgetForm("", None, None)

  class ManagerDashboardComponent {
    const authService: Session.AuthService
    var section: string
    var budgets: seq<Budget>
    var expenses: seq<Expense>
    var notifications: seq<NotificationItem>
    var pendingExpensesCount: nat
    var showEditModal: bool
    var selectedBudget: Option<Budget>
    var editBudgetForm: BudgetForm
    /** Set by `markAllAsTouched`, which reveals the form's validation errors. */
    var editFormTouched: bool
    var isLoadingBudgets: bool
    var isLoadingExpenses: bool

    /** The component as built and initialised (`buildForms` included). */
    constructor (authService: Session.AuthService)
      ensures this.authService == authService
      ensures section == "create-budget"
      ensures budgets == [] && expenses == [] && notifications == [] && pendingExpensesCount == 0
      ensures !showEditModal && selectedBudget == None && editBudgetForm == EmptyBudgetForm
      ensures !editFormTouched && !isLoadingBudgets && !isLoadingExpenses
    {
      this.authService := authService;
      section := "create-budget";
      budgets := [];
      expenses := [];
      notifications := [];
      pendingExpensesCount := 0;
      showEditModal := false;
      selectedBudget := None;
      editBudgetForm := EmptyBudgetForm;
      editFormTouched := false;
      isLoadingBudgets := false;
      isLoadingExpenses := false;
    }

    method SetSection(name: string)
      modifies this`section
      ensures section == name
    {
      section := name;
    }

    /** `loadBudgets` once the request has completed: None is an error. */
    method LoadBudgets(response: Option<seq<Budget>>)
      modifies this`budgets, this`isLoadingBudgets
      ensures !isLoadingBudgets
      ensures budgets == if response.Some? then response.value else old(budgets)
    {
      isLoadingBudgets := true;
      if response.Some? {
        budgets := response.value;
      }
      isLoadingBudgets := false;
    }

    /** `loadExpenses` once the request has completed: None is an error. */
    method LoadExpenses(response: Option<seq<Expense>>)
      modifies this`expenses, this`pendingExpensesCount, this`isLoadingExpenses
      ensures !isLoadingExpenses
      ensures response.Some? ==> expenses == response.value
      ensures response.Some? ==> pendingExpensesCount == CountStatus(expenses, Pending)
      ensures response.Some? ==> pendingExpensesCount <= |expenses|
      ensures response.Some? ==>
                (pendingExpensesCount == 0 <==> forall i :: 0 <= i < |expenses| ==> expenses[i].status != Pending)
      ensures response.None? ==> expenses == old(expenses) && pendingExpensesCount == old(pendingExpensesCount)
    {
      isLoadingExpenses := true;
      if response.Some? {
        expenses := response.value;
        pendingExpensesCount := |WithStatus(expenses, Pending)|;
      }
      isLoadingExpenses := false;
    }

    /** `notifications.unshift(...)`: the newest item goes first. */
    method PushNotification(message: string, kind: NotificationKind)
      modifies this`notifications
      ensures notifications == [NotificationItem(message, kind)] + old(notifications)
      ensures |notifications| == |old(notifications)| + 1
      ensures notifications[0] == NotificationItem(message, kind)
      ensures forall i :: 0 <= i < |old(notifications)| ==> notifications[i + 1] == old(notifications)[i]
    {
      notifications := [NotificationItem(message, kind)] + notifications;
    }

    method OpenEditModal(budget: Budget)
      modifies this`selectedBudget, this`editBudgetForm, this`showEditModal
      ensures selectedBudget == Some(budget) && showEditModal
      ensures editBudgetForm == BudgetForm(budget.title, budget.amountAllocated, Some(budget.departmentId))
    {
      selectedBudget := Some(budget);
      editBudgetForm := BudgetForm(budget.title, budget.amountAllocated, Some(budget.departmentId));
      showEditModal := true;
    }

    method CloseEditModal()
      modifies this`showEditModal, this`selectedBudget
      ensures !showEditModal && selectedBudget == None
    {
      showEditModal := false;
      selectedBudget := None;
    }

    /** The guard clause of `updateBudget` and the request it then sends;
        the form's validity is decided by its validators. */
    method UpdateBudget(formValid: bool) returns (request: Option<BudgetUpdate>)
      modifies this`editFormTouched
      ensures request.None? <==> selectedBudget.None? || !formValid
      ensures request.Some? ==> request.value == BudgetUpdate(selectedBudget.value.id, editBudgetForm)
      ensures editFormTouched == (old(editFormTouched) || request.None?)
    {
      if selectedBudget.None? || !formValid {
        editFormTouched := true;
        return None;
      }
      request := Some(BudgetUpdate(selectedBudget.value.id, editBudgetForm));
    }

    /** `approveExpense`: the status request it sends, and the notification
        its completion pushes (`succeeded` is the request's outcome). */
    method ApproveExpense(expense: Expense, succeeded: bool) returns (request: StatusUpdate)
      modifies this`notifications
      ensures request == StatusUpdate(expense.id, Approved)
      ensures notifications ==
                [NotificationItem(
                  if succeeded then "Expense \"" + expense.title + "\" approved."
                  else "Failed to approve expense \"" + expense.title + "\".",
                  ExpenseNotice)] + old(notifications)
    {
      request := StatusUpdate(expense.id, Approved);
      if succeeded {
        PushNotification("Expense \"" + expense.title + "\" approved.", ExpenseNotice);
      } else {
        PushNotification("Failed to approve expense \"" + expense.title + "\".", ExpenseNotice);
      }
    }

    /** `rejectExpense`: the status request it sends, and the notification
        its completion pushes (`succeeded` is the request's outcome). */
    method RejectExpense(expense: Expense, succeeded: bool) returns (request: StatusUpdate)
      modifies this`notifications
      ensures request == StatusUpdate(expense.id, Rejected)
      ensures notifications ==
                [NotificationItem(
                  if succeeded then "Expense \"" + expense.title + "\" rejected."
                  else "Failed to reject expense \"" + expense.title + "\".",
                  ExpenseNotice)] + old(notifications)
    {
      request := StatusUpdate(expense.id, Rejected);
      if succeeded {
        PushNotification("Expense \"" + expense.title + "\" rejected.", ExpenseNotice);
      } else {
        PushNotification("Failed to reject expense \"" + expense.title + "\".", ExpenseNotice);
      }
    }

    /** Ends the session and returns the path the router is sent to. */
    method Logout() returns (target: string)
      modifies authService`storage
      ensures authService.storage == old(authService.storage) - Session.SessionKeys
      ensures target == "/login"
    {
      authService.Logout();
      target := "/login";
    }
  }
}

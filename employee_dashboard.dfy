/** The employee dashboard (`EmployeeDashboardComponent`): the notifications
    derived from the employee's expenses, the edit modal, the section switch
    and the profile menu. */
module EmployeeDashboard {
  import opened Common
  import opened Records
  import Session

  /** A notification shown to the employee; `status` is Approved or Rejected. */
  datatype NotificationItem = NotificationItem(message: string, status: string)

  /** The values of the edit form's controls (null for an empty number field). */
  datatype ExpenseForm = ExpenseForm(title: string, amount: Option<int>, budgetId: Option<int>, description: string)

  /** The `updateExpense(id, payload)` request sent to the expense service. */
  datatype ExpenseUpdate = ExpenseUpdate(id: int, payload: ExpenseForm)

  const EmptyExpenseForm := ExpenseForm("", None, None, "")

  function ApprovedMessage(title: string): string {
    "Your expense \"" + title + "\" was approved."
  }

  function RejectedMessage(title: string): string {
    "Your expense \"" + title + "\" was rejected."
  }

  /** The two messages of one title differ (at the first letter of the verb's
      participle), so a message tells which decision was taken. */
  lemma MessagesDiffer(title: string)
    ensures ApprovedMessage(title) != RejectedMessage(title)
  {
    var k := |"Your expense \""| + |title| + |"\" was "|;
    assert ApprovedMessage(title)[k] == 'a';
    assert RejectedMessage(title)[k] == 'r';
  }

  predicate IsDecided(e: Expense) {
    e.status == Approved || e.status == Rejected
  }

  /** `expenses.filter(e => e.status === 'Approved' || e.status === 'Rejected')`. */
  function Decided(es: seq<Expense>): (r: seq<Expense>)
    ensures |r| <= |es|
    ensures forall i :: 0 <= i < |r| ==> IsDecided(r[i]) && r[i] in es
    ensures forall i :: 0 <= i < |es| && IsDecided(es[i]) ==> es[i] in r
  {
    if es == [] then []
    else if IsDecided(es[0]) then [es[0]] + Decided(es[1..])
    else Decided(es[1..])
  }

  /** The notification built for one decided expense. */
  function ToNotification(e: Expense): (n: NotificationItem)
    ensures n.status == e.status
    ensures n.message == ApprovedMessage(e.title) <==> e.status == Approved
    ensures e.status != Approved ==> n.message == RejectedMessage(e.title)
  {
    MessagesDiffer(e.title);
    NotificationItem(
      if e.status == Approved then ApprovedMessage(e.title) else RejectedMessage(e.title),
      e.status)
  }

  /** `.map(e => ({ message, status, ... }))`. */
  function ToNotifications(es: seq<Expense>): (ns: seq<NotificationItem>)
    ensures |ns| == |es|
    ensures forall i :: 0 <= i < |es| ==> ns[i] == ToNotification(es[i])
  {
    if es == [] then [] else [ToNotification(es[0])] + ToNotifications(es[1..])
  }

  /** The notifications `buildNotificationsFromExpenses` assigns. */
  function NotificationsFromExpenses(es: seq<Expense>): (ns: seq<NotificationItem>)
    ensures forall i :: 0 <= i < |ns| ==> ns[i].status == Approved || ns[i].status == Rejected
  {
    ToNotifications(Decided(es))
  }

  /** One notification per approved or rejected expense, none for the rest. */
  lemma {:induction false} NotificationCount(es: seq<Expense>)
    ensures |NotificationsFromExpenses(es)| == CountStatus(es, Approved) + CountStatus(es, Rejected)
  {
    if es != [] {
      NotificationCount(es[1..]);
      CountStatusStep(es, Approved);
      CountStatusStep(es, Rejected);
      assert Approved != Rejected by { assert Approved[0] != Rejected[0]; }
    }
  }

  /** A single expense yields its notification when decided, nothing otherwise. */
  lemma NotificationsOfOne(e: Expense)
    ensures NotificationsFromExpenses([e]) == if IsDecided(e) then [ToNotification(e)] else []
  {
    assert [e][1..] == [];
  }

  /** Notifications keep the order of their expenses: the notifications of a
      concatenation are the concatenation of the notifications. */
  lemma NotificationsAppend(a: seq<Expense>, b: seq<Expense>)
    ensures NotificationsFromExpenses(a + b) == NotificationsFromExpenses(a) + NotificationsFromExpenses(b)
  {
    DecidedAppend(a, b);
    ToNotificationsAppend(Decided(a), Decided(b));
  }

  lemma {:induction false} DecidedAppend(a: seq<Expense>, b: seq<Expense>)
    ensures Decided(a + b) == Decided(a) + Decided(b)
  {
    if a == [] {
      assert a + b == b;
    } else {
      assert (a + b)[1..] == a[1..] + b;
      DecidedAppend(a[1..], b);
    }
  }

  lemma ToNotificationsAppend(a: seq<Expense>, b: seq<Expense>)
    ensures ToNotifications(a + b) == ToNotifications(a) + ToNotifications(b)
  {
    assert forall i :: 0 <= i < |a + b| ==> ToNotifications(a + b)[i] == (ToNotifications(a) + ToNotifications(b))[i];
  }

  class EmployeeDashboardComponent {
    const authService: Session.AuthService
    var section: string
    var expenses: seq<Expense>
    var notifications: seq<NotificationItem>
    var showProfileMenu: bool
    var isLoadingExpenses: bool
    var showEditModal: bool
    var selectedExpense: Option<Expense>
    var editExpenseForm: ExpenseForm
    /** Set by `markAllAsTouched`, which reveals the form's validation errors. */
    var editFormTouched: bool

    /** The component as built and initialised (`buildForms` included). */
    constructor (authService: Session.AuthService)
      ensures this.authService == authService
      ensures section == "create-expense" && expenses == [] && notifications == []
      ensures !showProfileMenu && !isLoadingExpenses && !showEditModal && selectedExpense == None
      ensures editExpenseForm == EmptyExpenseForm && !editFormTouched
    {
      this.authService := authService;
      section := "create-expense";
      expenses := [];
      notifications := [];
      showProfileMenu := false;
      isLoadingExpenses := false;
      showEditModal := false;
      selectedExpense := None;
      editExpenseForm := EmptyExpenseForm;
      editFormTouched := false;
    }

    method SetSection(name: string)
      modifies this`section, this`showProfileMenu
      ensures section == name && !showProfileMenu
    {
      section := name;
      showProfileMenu := false;
    }

    /** `loadExpenses` once the request has completed: None is an error. */
    method LoadExpenses(response: Option<seq<Expense>>)
      modifies this`expenses, this`notifications, this`isLoadingExpenses
      ensures !isLoadingExpenses
      ensures response.Some? ==> expenses == response.value && notifications == NotificationsFromExpenses(expenses)
      ensures response.None? ==> expenses == old(expenses) && notifications == old(notifications)
    {
      isLoadingExpenses := true;
      if response.Some? {
        expenses := response.value;
        isLoadingExpenses := false;
        BuildNotificationsFromExpenses();
      } else {
        isLoadingExpenses := false;
      }
    }

    method BuildNotificationsFromExpenses()
      modifies this`notifications
      ensures notifications == NotificationsFromExpenses(expenses)
      ensures |notifications| == CountStatus(expenses, Approved) + CountStatus(expenses, Rejected)
    {
      notifications := NotificationsFromExpenses(expenses);
      NotificationCount(expenses);
    }

    method OpenEditModal(expense: Expense)
      modifies this`selectedExpense, this`editExpenseForm, this`showEditModal
      ensures selectedExpense == Some(expense) && showEditModal
      ensures editExpenseForm.title == expense.title && editExpenseForm.amount == expense.amount
      ensures editExpenseForm.budgetId == Some(expense.budgetId)
      ensures editExpenseForm.description == if Truthy(expense.description) then expense.description.value else ""
    {
      selectedExpense := Some(expense);
      editExpenseForm := ExpenseForm(
        expense.title, expense.amount, Some(expense.budgetId),
        if Truthy(expense.description) then expense.description.value else "");
      showEditModal := true;
    }

    method CloseEditModal()
      modifies this`showEditModal, this`selectedExpense
      ensures !showEditModal && selectedExpense == None
    {
      showEditModal := false;
      selectedExpense := None;
    }

    /** The guard clause of `updateExpense` and the request it then sends;
        the form's validity is decided by its validators. */
    method UpdateExpense(formValid: bool) returns (request: Option<ExpenseUpdate>)
      modifies this`editFormTouched
      ensures request.None? <==> selectedExpense.None? || !formValid
      ensures request.Some? ==> request.value == ExpenseUpdate(selectedExpense.value.id, editExpenseForm)
      ensures editFormTouched == (old(editFormTouched) || request.None?)
    {
      if selectedExpense.None? || !formValid {
        editFormTouched := true;
        return None;
      }
      request := Some(ExpenseUpdate(selectedExpense.value.id, editExpenseForm));
    }

    method ToggleProfileMenu()
      modifies this`showProfileMenu
      ensures showProfileMenu == !old(showProfileMenu)
    {
      showProfileMenu := !showProfileMenu;
    }

    method NavigateToProfile()
      modifies this`showProfileMenu
      ensures !showProfileMenu
    {
      showProfileMenu := false;
    }

    /** Ends the session and returns the path the router is sent to. */
    method Logout() returns (target: string)
      modifies authService`storage
      ensures authService.storage == old(authService.storage) - Session.SessionKeys
      ensures target == "/login"
    {
      authService.Logout();
      target := "/login";
    }
  }
}

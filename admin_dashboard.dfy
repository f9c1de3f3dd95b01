/** The admin dashboard (`AdminDashboardComponent`): aggregate figures over all
    budgets and expenses, and the profile menu. */
module AdminDashboard {
  import opened Common
  import opened Records
  import Session

  class AdminDashboardComponent {
    const authService: Session.AuthService
    var showProfileMenu: bool
    var budgets: seq<Budget>
    var expenses: seq<Expense>
    var isLoading: bool

    constructor (authService: Session.AuthService)
      ensures this.authService == authService
      ensures !showProfileMenu && budgets == [] && expenses == [] && !isLoading
    {
      this.authService := authService;
      showProfileMenu := false;
      budgets := [];
      expenses := [];
      isLoading := false;
    }

    /** `loadData` once both requests have completed: None is an error, which
        leaves that list as it was. */
    method LoadData(budgetsResponse: Option<seq<Budget>>, expensesResponse: Option<seq<Expense>>)
      modifies this`budgets, this`expenses, this`isLoading
      ensures budgets == if budgetsResponse.Some? then budgetsResponse.value else old(budgets)
      ensures expenses == if expensesResponse.Some? then expensesResponse.value else old(expenses)
      ensures !isLoading
    {
      isLoading := true;
      if budgetsResponse.Some? {
        budgets := budgetsResponse.value;
      }
      isLoading := false;
      if expensesResponse.Some? {
        expenses := expensesResponse.value;
      }
      isLoading := false;
    }

    function TotalBudgets(): (n: nat)
      reads this
      ensures n == |budgets|
    {
      |budgets|
    }

    /** The sum of the allocated amounts, a missing amount counting as 0. */
    function TotalAllocated(): (total: int)
      reads this
      ensures total == Sum(budgets, Allocated)
      ensures (forall i :: 0 <= i < |budgets| ==> Allocated(budgets[i]) >= 0) ==> total >= 0
    {
      ReduceIsSum(budgets, Allocated, 0);
      SumNonNegative(budgets, Allocated);
      Reduce(budgets, Allocated, 0)
    }

    function TotalExpenses(): (n: nat)
      reads this
      ensures n == |expenses|
    {
      |expenses|
    }

    /** The sum of the expense amounts, a missing amount counting as 0. */
    function TotalSpent(): (total: int)
      reads this
      ensures total == Sum(expenses, Spent)
      ensures (forall i :: 0 <= i < |expenses| ==> Spent(expenses[i]) >= 0) ==> total >= 0
    {
      ReduceIsSum(expenses, Spent, 0);
      SumNonNegative(expenses, Spent);
      Reduce(expenses, Spent, 0)
    }

    function PendingExpenses(): (n: nat)
      reads this
      ensures n <= |expenses|
      ensures n == 0 <==> forall i :: 0 <= i < |expenses| ==> expenses[i].status != Pending
      ensures n == |expenses| <==> forall i :: 0 <= i < |expenses| ==> expenses[i].status == Pending
    {
      CountStatus(expenses, Pending)
    }

    function ApprovedExpenses(): (n: nat)
      reads this
      ensures n <= |expenses|
      ensures n == 0 <==> forall i :: 0 <= i < |expenses| ==> expenses[i].status != Approved
      ensures n == |expenses| <==> forall i :: 0 <= i < |expenses| ==> expenses[i].status == Approved
    {
      CountStatus(expenses, Approved)
    }

    function RejectedExpenses(): (n: nat)
      reads this
      ensures n <= |expenses|
      ensures n == 0 <==> forall i :: 0 <= i < |expenses| ==> expenses[i].status != Rejected
      ensures n == |expenses| <==> forall i :: 0 <= i < |expenses| ==> expenses[i].status == Rejected
    {
      CountStatus(expenses, Rejected)
    }

    /** The three status figures never exceed the expense total, and match it
        exactly when every status is Pending, Approved or Rejected. */
    lemma StatusFiguresBound()
      ensures PendingExpenses() + ApprovedExpenses() + RejectedExpenses() <= TotalExpenses()
      ensures PendingExpenses() + ApprovedExpenses() + RejectedExpenses() == TotalExpenses()
              <==> forall i :: 0 <= i < |expenses| ==> KnownStatus(expenses[i])
    {
      StatusCountsBound(expenses);
    }

    method ToggleProfileMenu()
      modifies this`showProfileMenu
      ensures showProfileMenu == !old(showProfileMenu)
    {
      showProfileMenu := !showProfileMenu;
    }

    method NavigateToProfile()
      modifies this`showProfileMenu
      ensures !showProfileMenu
    {
      showProfileMenu := false;
    }

    /** Ends the session and returns the path the router is sent to. */
    method Logout() returns (target: string)
      modifies authService`storage
      ensures authService.storage == old(authService.storage) - Session.SessionKeys
      ensures target == "/login"
    {
      authService.Logout();
      target := "/login";
    }
  }
}

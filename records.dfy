/** The records the dashboards display (`Expense`, `Budget`) and the list
    computations they share: the status filters and the amount sums. */
module Records {
  import opened Common

  const Pending := "Pending"
  const Approved := "Approved"
  const Rejected := "Rejected"

  /** An expense claim. `amount` is a JavaScript number in the source; here it
      is an integer, and None stands for a value missing from the response. */
  datatype Expense = Expense(
    id: int,
    title: string,
    amount: Option<int>,
    budgetId: int,
    description: Option<string>,
    employeeName: Option<string>,
    status: string)

  datatype Budget = Budget(id: int, title: string, amountAllocated: Option<int>, departmentId: int)

  /** `es.filter(e => e.status === status)`. */
  function WithStatus(es: seq<Expense>, status: string): (r: seq<Expense>)
    ensures |r| <= |es|
    ensures forall i :: 0 <= i < |r| ==> r[i].status == status && r[i] in es
    ensures forall i :: 0 <= i < |es| && es[i].status == status ==> es[i] in r
    ensures r == [] <==> forall i :: 0 <= i < |es| ==> es[i].status != status
    ensures |r| == |es| <==> forall i :: 0 <= i < |es| ==> es[i].status == status
  {
    if es == [] then []
    else
      var rest := WithStatus(es[1..], status);
      if es[0].status == status then [es[0]] + rest else rest
  }

  /** The filter keeps every copy of a matching expense and no copy of any
      other. */
  lemma {:induction false} WithStatusMultiset(es: seq<Expense>, status: string)
    ensures forall x :: multiset(WithStatus(es, status))[x] == if x.status == status then multiset(es)[x] else 0
  {
    if es != [] {
      WithStatusMultiset(es[1..], status);
      assert es == [es[0]] + es[1..];
    }
  }

  /** The filter keeps order: filtering a concatenation is concatenating the
      filtered parts. */
  lemma {:induction false} WithStatusAppend(a: seq<Expense>, b: seq<Expense>, status: string)
    ensures WithStatus(a + b, status) == WithStatus(a, status) + WithStatus(b, status)
  {
    if a == [] {
      assert a + b == b;
    } else {
      assert (a + b)[1..] == a[1..] + b;
      WithStatusAppend(a[1..], b, status);
    }
  }

  /** `es.filter(e => e.status === status).length`. */
  function CountStatus(es: seq<Expense>, status: string): (n: nat)
    ensures n <= |es|
    ensures n == 0 <==> forall i :: 0 <= i < |es| ==> es[i].status != status
    ensures n == |es| <==> forall i :: 0 <= i < |es| ==> es[i].status == status
  {
    |WithStatus(es, status)|
  }

  predicate KnownStatus(e: Expense) {
    e.status == Pending || e.status == Approved || e.status == Rejected
  }

  lemma CountStatusStep(es: seq<Expense>, status: string)
    requires es != []
    ensures CountStatus(es, status) == (if es[0].status == status then 1 else 0) + CountStatus(es[1..], status)
  {
  }

  /** The number of expenses whose status is none of the three. */
  function CountUnknown(es: seq<Expense>): (n: nat)
    ensures n <= |es|
    ensures n == 0 <==> forall i :: 0 <= i < |es| ==> KnownStatus(es[i])
  {
    if es == [] then 0
    else (if KnownStatus(es[0]) then 0 else 1) + CountUnknown(es[1..])
  }

  /** Every expense is counted once: under its own status, or as unknown. */
  lemma {:induction false} StatusPartition(es: seq<Expense>)
    ensures CountStatus(es, Pending) + CountStatus(es, Approved) + CountStatus(es, Rejected)
            + CountUnknown(es) == |es|
  {
    if es != [] {
      StatusPartition(es[1..]);
      CountStatusStep(es, Pending);
      CountStatusStep(es, Approved);
      CountStatusStep(es, Rejected);
      assert Approved != Rejected by { assert Approved[0] != Rejected[0]; }
    }
  }

  /** The three status counts never exceed the number of expenses, and they
      add up to it exactly when every status is one of the three. */
  lemma StatusCountsBound(es: seq<Expense>)
    ensures CountStatus(es, Pending) + CountStatus(es, Approved) + CountStatus(es, Rejected) <= |es|
    ensures CountStatus(es, Pending) + CountStatus(es, Approved) + CountStatus(es, Rejected) == |es|
            <==> forall i :: 0 <= i < |es| ==> KnownStatus(es[i])
  {
    StatusPartition(es);
  }

  /** The amount a budget adds to the total: `b.amountAllocated || 0`. */
  function Allocated(b: Budget): int {
    OrZero(b.amountAllocated)
  }

  /** The amount an expense adds to the total: `e.amount || 0`. */
  function Spent(e: Expense): int {
    OrZero(e.amount)
  }

  /** `xs.reduce((acc, x) => acc + f(x), acc)`: a left fold. */
  function Reduce<T>(xs: seq<T>, f: T -> int, acc: int): int {
    if xs == [] then acc else Reduce(xs[1..], f, acc + f(xs[0]))
  }

  /** The sum of `f` over `xs`. */
  function Sum<T>(xs: seq<T>, f: T -> int): int {
    if xs == [] then 0 else f(xs[0]) + Sum(xs[1..], f)
  }

  lemma {:induction false} ReduceIsSum<T>(xs: seq<T>, f: T -> int, acc: int)
    ensures Reduce(xs, f, acc) == acc + Sum(xs, f)
  {
    if xs != [] {
      ReduceIsSum(xs[1..], f, acc + f(xs[0]));
    }
  }

  lemma {:induction false} SumNonNegative<T>(xs: seq<T>, f: T -> int)
    ensures (forall i :: 0 <= i < |xs| ==> f(xs[i]) >= 0) ==> Sum(xs, f) >= 0
  {
    if xs != [] {
      SumNonNegative(xs[1..], f);
      assert forall i :: 1 <= i < |xs| ==> xs[i] == xs[1..][i - 1];
    }
  }
}

/** `expenseReducer` (src/contexts/ExpenseContext.jsx): the expense list and
    its loading flag as a pure state transition, with the status selectors. */
module ExpenseContext {
  import opened Js

  datatype ExpenseState = ExpenseState(expenses: seq<Record>, loading: bool)

  /** The dispatched actions by `type`; `Unknown` stands for any other type. */
  datatype ExpenseAction =
    | LoadExpenses(list: seq<Record>)
    | AddExpense(expense: Record)
    | UpdateExpense(patch: Record)
    | DeleteExpense(id: Option<string>)
    | ApproveExpense(approval: Record)
    | RejectExpense(rejection: Record)
    | SetLoading(flag: bool)
    | Unknown(kind: string)

  const InitialState := ExpenseState([], true)

  const ApprovalKeys := {"status", "approvedBy", "approvedByName", "approvedDate"}
  const RejectionKeys := {"status", "rejectedBy", "rejectedByName", "rejectedDate"}

  /** `{...e, status: 'approved', approvedBy, approvedByName, approvedDate}`. */
  function Approve(e: Record, who: Option<string>, whoName: Option<string>, date: Option<string>): (r: Record)
    ensures Get(r, "status") == Some("approved")
    ensures Get(r, "approvedBy") == who && Get(r, "approvedByName") == whoName && Get(r, "approvedDate") == date
    ensures forall k :: k !in ApprovalKeys ==> Get(r, k) == Get(e, k)
  {
    Put(Put(Put(e["status" := "approved"], "approvedBy", who), "approvedByName", whoName), "approvedDate", date)
  }

  /** `{...e, status: 'rejected', rejectedBy, rejectedByName, rejectedDate}`. */
  function Reject(e: Record, who: Option<string>, whoName: Option<string>, date: Option<string>): (r: Record)
    ensures Get(r, "status") == Some("rejected")
    ensures Get(r, "rejectedBy") == who && Get(r, "rejectedByName") == whoName && Get(r, "rejectedDate") == date
    ensures forall k :: k !in RejectionKeys ==> Get(r, k) == Get(e, k)
  {
    Put(Put(Put(e["status" := "rejected"], "rejectedBy", who), "rejectedByName", whoName), "rejectedDate", date)
  }

  /** `xs.map(e => e.id === id ? upd(e) : e)`; `===` on two `undefined`s holds. */
  function MapMatching(xs: seq<Record>, id: Option<string>, upd: Record -> Record): (r: seq<Record>)
    ensures |r| == |xs|
    ensures forall i :: 0 <= i < |xs| ==> r[i] == if Get(xs[i], "id") == id then upd(xs[i]) else xs[i]
  {
    seq(|xs|, i requires 0 <= i < |xs| => if Get(xs[i], "id") == id then upd(xs[i]) else xs[i])
  }

  /** `xs.filter(e => e.id !== id)`: every record with another `id`, as
      often as it occurs and in list order. */
  function Without(xs: seq<Record>, id: Option<string>): (r: seq<Record>)
    ensures IsSubsequence(r, xs)
    ensures forall e :: multiset(r)[e] == if Get(e, "id") != id then multiset(xs)[e] else 0
  {
    Filter(xs, (e: Record) => Get(e, "id") != id)
  }

  /** `xs.filter(e => e.status === status)`: exactly the records in that
      status, in list order. */
  function WithStatus(xs: seq<Record>, status: string): (r: seq<Record>)
    ensures IsSubsequence(r, xs)
    ensures forall e :: e in r <==> e in xs && Get(e, "status") == Some(status)
    ensures forall e :: multiset(r)[e] == if Get(e, "status") == Some(status) then multiset(xs)[e] else 0
  {
    Filter(xs, (e: Record) => Get(e, "status") == Some(status))
  }

  /** The `id` the update, approve and reject actions carry. */
  function PayloadId(a: ExpenseAction): Option<string>
    requires a.UpdateExpense? || a.ApproveExpense? || a.RejectExpense?
  {
    match a
    case UpdateExpense(p) => Get(p, "id")
    case ApproveExpense(p) => Get(p, "id")
    case RejectExpense(p) => Get(p, "id")
  }

  /** `expenseReducer(state, action)`. */
  function Reduce(s: ExpenseState, a: ExpenseAction): (t: ExpenseState)
    ensures a.LoadExpenses? ==> t.expenses == a.list && !t.loading
    ensures a.AddExpense? ==> t.expenses == s.expenses + [a.expense]
    ensures (a.UpdateExpense? || a.ApproveExpense? || a.RejectExpense?) ==>
              |t.expenses| == |s.expenses|
              && forall i :: 0 <= i < |s.expenses| && Get(s.expenses[i], "id") != PayloadId(a) ==>
                   t.expenses[i] == s.expenses[i]
    ensures a.UpdateExpense? ==>
              forall i :: 0 <= i < |s.expenses| && Get(s.expenses[i], "id") == Get(a.patch, "id") ==>
                t.expenses[i] == s.expenses[i] + a.patch
    ensures a.ApproveExpense? ==>
              forall i :: 0 <= i < |s.expenses| && Get(s.expenses[i], "id") == Get(a.approval, "id") ==>
                t.expenses[i] == Approve(s.expenses[i], Get(a.approval, "approvedBy"),
                                         Get(a.approval, "approvedByName"), Get(a.approval, "approvedDate"))
    ensures a.RejectExpense? ==>
              forall i :: 0 <= i < |s.expenses| && Get(s.expenses[i], "id") == Get(a.rejection, "id") ==>
                t.expenses[i] == Reject(s.expenses[i], Get(a.rejection, "rejectedBy"),
                                        Get(a.rejection, "rejectedByName"), Get(a.rejection, "rejectedDate"))
    ensures a.SetLoading? ==> t == s.(loading := a.flag)
    ensures !a.LoadExpenses? && !a.SetLoading? ==> t.loading == s.loading
    ensures a.Unknown? ==> t == s
    ensures a.DeleteExpense? ==>
              IsSubsequence(t.expenses, s.expenses)
              && (forall e :: e in t.expenses <==> e in s.expenses && Get(e, "id") != a.id)
              && forall e :: multiset(t.expenses)[e] == if Get(e, "id") != a.id then multiset(s.expenses)[e] else 0
  {
    match a
    case LoadExpenses(list) => ExpenseState(list, false)
    case AddExpense(e) => s.(expenses := s.expenses + [e])
    case UpdateExpense(p) => s.(expenses := MapMatching(s.expenses, Get(p, "id"), (e: Record) => e + p))
    case DeleteExpense(id) => s.(expenses := Without(s.expenses, id))
    case ApproveExpense(p) =>
      s.(expenses := MapMatching(s.expenses, Get(p, "id"),
                                 (e: Record) => Approve(e, Get(p, "approvedBy"), Get(p, "approvedByName"), Get(p, "approvedDate"))))
    case RejectExpense(p) =>
      s.(expenses := MapMatching(s.expenses, Get(p, "id"),
                                 (e: Record) => Reject(e, Get(p, "rejectedBy"), Get(p, "rejectedByName"), Get(p, "rejectedDate"))))
    case SetLoading(flag) => s.(loading := flag)
    case Unknown(_) => s
  }

  function Pending(s: ExpenseState): seq<Record> { WithStatus(s.expenses, "pending") }
  function Approved(s: ExpenseState): seq<Record> { WithStatus(s.expenses, "approved") }
  function Rejected(s: ExpenseState): seq<Record> { WithStatus(s.expenses, "rejected") }

  /** No record is in two of the three selector lists, so together they hold
      at most as many records as the list. */
  lemma {:induction false} SelectorCounts(xs: seq<Record>)
    ensures |WithStatus(xs, "pending")| + |WithStatus(xs, "approved")| + |WithStatus(xs, "rejected")| <= |xs|
    decreases |xs|
  {
    if |xs| > 0 {
      SelectorCounts(xs[..|xs| - 1]);
    }
  }

  /** Adding an expense in some status appends it to that status's list. */
  lemma AddJoinsSelector(s: ExpenseState, e: Record, status: string)
    requires Get(e, "status") == Some(status)
    ensures WithStatus(Reduce(s, AddExpense(e)).expenses, status) == WithStatus(s.expenses, status) + [e]
  {
    assert (s.expenses + [e])[..|s.expenses|] == s.expenses;
  }

  /** After approving an id, no pending record carries that id any more and
      every record that carried it is in the approved list. */
  lemma ApprovalLeavesPending(s: ExpenseState, p: Record)
    ensures forall e :: e in Pending(Reduce(s, ApproveExpense(p))) ==> Get(e, "id") != Get(p, "id")
    ensures forall e :: e in s.expenses && Get(e, "id") == Get(p, "id") ==>
              Approve(e, Get(p, "approvedBy"), Get(p, "approvedByName"), Get(p, "approvedDate"))
                in Approved(Reduce(s, ApproveExpense(p)))
  {
    var t := Reduce(s, ApproveExpense(p));
    ApprovedInPlace(s.expenses, t.expenses, Get(p, "id"),
                    Get(p, "approvedBy"), Get(p, "approvedByName"), Get(p, "approvedDate"));
  }

  /** The selector facts of `ApprovalLeavesPending`, for any list that
      approves in place the records carrying `id`. */
  lemma ApprovedInPlace(xs: seq<Record>, ys: seq<Record>, id: Option<string>,
                        who: Option<string>, whoName: Option<string>, date: Option<string>)
    requires |ys| == |xs|
    requires forall i :: 0 <= i < |xs| && Get(xs[i], "id") != id ==> ys[i] == xs[i]
    requires forall i :: 0 <= i < |xs| && Get(xs[i], "id") == id ==> ys[i] == Approve(xs[i], who, whoName, date)
    ensures forall e :: e in WithStatus(ys, "pending") ==> Get(e, "id") != id
    ensures forall e :: e in xs && Get(e, "id") == id ==> Approve(e, who, whoName, date) in WithStatus(ys, "approved")
  {
    forall i | 0 <= i < |ys| ensures Get(ys[i], "status") == Some("pending") ==> Get(ys[i], "id") != id {
      if Get(xs[i], "id") == id {
        assert Get(ys[i], "status") == Some("approved");
      } else {
        assert ys[i] == xs[i];
      }
    }
    forall e | e in xs && Get(e, "id") == id
      ensures Approve(e, who, whoName, date) in WithStatus(ys, "approved")
    {
      var i :| 0 <= i < |xs| && xs[i] == e;
      assert ys[i] == Approve(e, who, whoName, date);
    }
  }

  /** Deleting an id leaves no record with that id in any selector list. */
  lemma DeleteLeavesSelectors(s: ExpenseState, id: Option<string>, status: string)
    ensures forall e :: e in WithStatus(Reduce(s, DeleteExpense(id)).expenses, status) ==>
              Get(e, "id") != id && e in WithStatus(s.expenses, status)
  {
  }
}

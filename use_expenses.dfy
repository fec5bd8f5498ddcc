/** `useExpenses` (src/hooks/useExpenses.js): the expense list and the shared
    audit ledger, changed by four operations that each check a permission,
    look the expense up, replace the list and prepend one ledger entry. */
module UseExpenses {
  import opened Js
  import opened EnterpriseUtils
  import ExpenseContext
  import ApprovalWorkflow

  const ExpenseNotFound := "Expense not found"

  /** The position of the first record whose `id` is `id`, or `|xs|` when none has it. */
  function FirstIndex(xs: seq<Record>, id: string): (i: nat)
    ensures i <= |xs|
    ensures i < |xs| ==> Get(xs[i], "id") == Some(id)
    ensures forall j :: 0 <= j < i ==> Get(xs[j], "id") != Some(id)
    decreases |xs|
  {
    if |xs| == 0 then 0
    else if Get(xs[0], "id") == Some(id) then 0
    else 1 + FirstIndex(xs[1..], id)
  }

  /** `xs.find(e => e.id === id)`: the first record with that id, if any. */
  function FindById(xs: seq<Record>, id: string): (r: Option<Record>)
    ensures r.None? <==> forall i :: 0 <= i < |xs| ==> Get(xs[i], "id") != Some(id)
    ensures r.Some? ==> Get(r.value, "id") == Some(id)
                        && exists i :: 0 <= i < |xs| && xs[i] == r.value
                                       && forall j :: 0 <= j < i ==> Get(xs[j], "id") != Some(id)
  {
    var i := FirstIndex(xs, id);
    if i < |xs| then Some(xs[i]) else None
  }

  const SubmissionKeys := {"id", "status", "submittedBy", "submittedByName", "submittedDate"}

  /** `{ id, ...data, status: 'pending', submittedBy, submittedByName, submittedDate }`:
      an `id` in the submitted data wins over the generated one. */
  function Submitted(id: string, data: Record, user: Record, now: Moment): (r: Record)
    ensures Get(r, "id") == if "id" in data then Get(data, "id") else Some(id)
    ensures Get(r, "status") == Some("pending")
    ensures Get(r, "submittedBy") == Get(user, "username") && Get(r, "submittedByName") == Get(user, "name")
    ensures Get(r, "submittedDate") == Some(now.iso)
    ensures forall k :: k !in SubmissionKeys ==> Get(r, k) == Get(data, k)
  {
    Put(Put((map["id" := id] + data)["status" := "pending"], "submittedBy", Get(user, "username")),
        "submittedByName", Get(user, "name"))["submittedDate" := now.iso]
  }

  /** The approved copy the hook stores: the current user as approver. */
  function Approval(e: Record, user: Record, now: Moment): Record
  {
    ExpenseContext.Approve(e, Get(user, "username"), Get(user, "name"), Some(now.iso))
  }

  /** The rejected copy the hook stores: the current user as rejecter. */
  function Rejection(e: Record, user: Record, now: Moment): Record
  {
    ExpenseContext.Reject(e, Get(user, "username"), Get(user, "name"), Some(now.iso))
  }

  /** `xs.map(e => e.id === id ? r : e)`. */
  function ReplaceById(xs: seq<Record>, id: string, r: Record): seq<Record>
  {
    seq(|xs|, i requires 0 <= i < |xs| => if Get(xs[i], "id") == Some(id) then r else xs[i])
  }

  /** `updatedExpense` replaces exactly the records carrying the id; the list
      keeps its length and order. */
  predicate ReplacedById(after: seq<Record>, before: seq<Record>, id: string, r: Record)
  {
    |after| == |before|
    && forall i :: 0 <= i < |before| ==> after[i] == if Get(before[i], "id") == Some(id) then r else before[i]
  }

  /** `approveExpense` never consults the workflow table: a rejected expense,
      which the table lets go nowhere, comes out approved. */
  lemma ApprovalSkipsWorkflow(e: Record, user: Record, now: Moment)
    requires Get(e, "status") == Some(ApprovalWorkflow.Rejected)
    ensures Get(Approval(e, user, now), "status") == Some(ApprovalWorkflow.Approved)
    ensures !ApprovalWorkflow.CanTransition(Get(e, "status"), Get(Approval(e, user, now), "status"))
  {
  }

  class ExpenseHook {
    var expenses: seq<Record>
    const currentUser: Record
    const audit: AuditTrail

    constructor(initial: seq<Record>, user: Record, trail: AuditTrail)
      ensures expenses == initial && currentUser == user && audit == trail
    {
      expenses := initial;
      currentUser := user;
      audit := trail;
    }

    /** `requirePermission(currentUser, verb, 'expense')`. */
    predicate Allowed(verb: string)
    {
      HasPermission(Some(currentUser), verb, "expense")
    }

    /** `expenses.filter(e => e.status === status)`: the pending, approved and
        rejected lists the hook returns. */
    function StatusList(status: string): (r: seq<Record>)
      reads this
      ensures IsSubsequence(r, expenses)
      ensures forall e :: e in r <==> e in expenses && Get(e, "status") == Some(status)
      ensures forall e :: multiset(r)[e] == if Get(e, "status") == Some(status) then multiset(expenses)[e] else 0
    {
      ExpenseContext.WithStatus(expenses, status)
    }

    /** `addExpense(expenseData)`. */
    method AddExpense(data: Record, expenseId: string, now: Moment, logId: string) returns (result: Outcome)
      modifies this, audit
      ensures Prepended(audit.entries, old(audit.entries))
      ensures !Allowed("create") ==>
                expenses == old(expenses) && result == Failed(InsufficientPermissions)
                && DeniedEntry(audit.entries[0], "expense", None, "create", currentUser, now, logId)
      ensures Allowed("create") ==>
                var e := Submitted(expenseId, data, currentUser, now);
                expenses == old(expenses) + [e] && result == Outcome(true, None, Some(e))
                && LoggedAs(audit.entries[0], "expense_created", "expense", Some(expenseId), None, Some(e),
                            currentUser, true, None, now, logId)
    {
      if !Allowed("create") {
        var _ := audit.LogAudit("permission_denied", "expense", None, None, Some(map["action" := "create"]),
                                currentUser, false, Some(InsufficientPermissions), now, logId);
        return Failed(InsufficientPermissions);
      }
      var e := Submitted(expenseId, data, currentUser, now);
      expenses := expenses + [e];
      var _ := audit.LogAudit("expense_created", "expense", Some(expenseId), None, Some(e),
                              currentUser, true, None, now, logId);
      result := Outcome(true, None, Some(e));
    }

    /** `approveExpense(expenseId)`. */
    method ApproveExpense(expenseId: string, now: Moment, logId: string) returns (result: Outcome)
      modifies this, audit
      ensures !Allowed("approve") ==>
                expenses == old(expenses) && result == Failed(InsufficientPermissions)
                && Prepended(audit.entries, old(audit.entries))
                && DeniedEntry(audit.entries[0], "expense", Some(expenseId), "approve", currentUser, now, logId)
      ensures Allowed("approve") && FindById(old(expenses), expenseId).None? ==>
                expenses == old(expenses) && audit.entries == old(audit.entries)
                && result == Failed(ExpenseNotFound)
      ensures Allowed("approve") && FindById(old(expenses), expenseId).Some? ==>
                var found := FindById(old(expenses), expenseId).value;
                var u := Approval(found, currentUser, now);
                ReplacedById(expenses, old(expenses), expenseId, u) && result == Outcome(true, None, Some(u))
                && Prepended(audit.entries, old(audit.entries))
                && LoggedAs(audit.entries[0], "expense_approved", "expense", Some(expenseId), Some(found), Some(u),
                            currentUser, true, None, now, logId)
    {
      if !Allowed("approve") {
        var _ := audit.LogAudit("permission_denied", "expense", Some(expenseId), None, Some(map["action" := "approve"]),
                                currentUser, false, Some(InsufficientPermissions), now, logId);
        return Failed(InsufficientPermissions);
      }
      var found := FindById(expenses, expenseId);
      if found.None? {
        return Failed(ExpenseNotFound);
      }
      var u := Approval(found.value, currentUser, now);
      expenses := ReplaceById(expenses, expenseId, u);
      var _ := audit.LogAudit("expense_approved", "expense", Some(expenseId), found, Some(u),
                              currentUser, true, None, now, logId);
      result := Outcome(true, None, Some(u));
    }

    /** `rejectExpense(expenseId)`; it asks for the `approve` permission. */
    method RejectExpense(expenseId: string, now: Moment, logId: string) returns (result: Outcome)
      modifies this, audit
      ensures !Allowed("approve") ==>
                expenses == old(expenses) && result == Failed(InsufficientPermissions)
                && Prepended(audit.entries, old(audit.entries))
                && DeniedEntry(audit.entries[0], "expense", Some(expenseId), "reject", currentUser, now, logId)
      ensures Allowed("approve") && FindById(old(expenses), expenseId).None? ==>
                expenses == old(expenses) && audit.entries == old(audit.entries)
                && result == Failed(ExpenseNotFound)
      ensures Allowed("approve") && FindById(old(expenses), expenseId).Some? ==>
                var found := FindById(old(expenses), expenseId).value;
                var u := Rejection(found, currentUser, now);
                ReplacedById(expenses, old(expenses), expenseId, u) && result == Outcome(true, None, Some(u))
                && Prepended(audit.entries, old(audit.entries))
                && LoggedAs(audit.entries[0], "expense_rejected", "expense", Some(expenseId), Some(found), Some(u),
                            currentUser, true, None, now, logId)
    {
      if !Allowed("approve") {
        var _ := audit.LogAudit("permission_denied", "expense", Some(expenseId), None, Some(map["action" := "reject"]),
                                currentUser, false, Some(InsufficientPermissions), now, logId);
        return Failed(InsufficientPermissions);
      }
      var found := FindById(expenses, expenseId);
      if found.None? {
        return Failed(ExpenseNotFound);
      }
      var u := Rejection(found.value, currentUser, now);
      expenses := ReplaceById(expenses, expenseId, u);
      var _ := audit.LogAudit("expense_rejected", "expense", Some(expenseId), found, Some(u),
                              currentUser, true, None, now, logId);
      result := Outcome(true, None, Some(u));
    }

    /** `deleteExpense(expenseId)`. */
    method DeleteExpense(expenseId: string, now: Moment, logId: string) returns (result: Outcome)
      modifies this, audit
      ensures !Allowed("delete") ==>
                expenses == old(expenses) && result == Failed(InsufficientPermissions)
                && Prepended(audit.entries, old(audit.entries))
                && DeniedEntry(audit.entries[0], "expense", Some(expenseId), "delete", currentUser, now, logId)
      ensures Allowed("delete") && FindById(old(expenses), expenseId).None? ==>
                expenses == old(expenses) && audit.entries == old(audit.entries)
                && result == Failed(ExpenseNotFound)
      ensures Allowed("delete") && FindById(old(expenses), expenseId).Some? ==>
                expenses == ExpenseContext.Without(old(expenses), Some(expenseId))
                && IsSubsequence(expenses, old(expenses))
                && (forall e :: e in expenses <==> e in old(expenses) && Get(e, "id") != Some(expenseId))
                && (forall e :: multiset(expenses)[e] ==
                      if Get(e, "id") != Some(expenseId) then multiset(old(expenses))[e] else 0)
                && result == Outcome(true, None, None)
                && Prepended(audit.entries, old(audit.entries))
                && LoggedAs(audit.entries[0], "expense_deleted", "expense", Some(expenseId),
                            FindById(old(expenses), expenseId), None, currentUser, true, None, now, logId)
    {
      if !Allowed("delete") {
        var _ := audit.LogAudit("permission_denied", "expense", Some(expenseId), None, Some(map["action" := "delete"]),
                                currentUser, false, Some(InsufficientPermissions), now, logId);
        return Failed(InsufficientPermissions);
      }
      var found := FindById(expenses, expenseId);
      if found.None? {
        return Failed(ExpenseNotFound);
      }
      expenses := ExpenseContext.Without(expenses, Some(expenseId));
      var _ := audit.LogAudit("expense_deleted", "expense", Some(expenseId), found, None,
                              currentUser, true, None, now, logId);
      result := Outcome(true, None, None);
    }
  }
}

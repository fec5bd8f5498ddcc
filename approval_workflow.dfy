/** The expense approval state machine of src/utils/approvalWorkflow.js:
    the transition table, the action-to-state mapping, the checks an
    approval action must pass, the actions offered to a user, approval
    records, the per-state summary and the expense timeline. An expense and
    a user are plain objects; `status`, `submittedBy`, `username` and `role`
    may be missing. */
module ApprovalWorkflow {
  import opened Js

  const Draft := "draft"
  const Pending := "pending"
  const Approved := "approved"
  const Rejected := "rejected"
  const Paid := "paid"
  const Cancelled := "cancelled"

  // ------------------------------------------------------------ transitions

  /** `VALID_TRANSITIONS[fromState] || []` */
  function Targets(from: Option<string>): (ts: seq<string>)
    ensures |ts| <= 3
  {
    match from
    case None => []
    case Some(s) =>
      if s == Draft then [Pending, Cancelled]
      else if s == Pending then [Approved, Rejected, Cancelled]
      else if s == Approved then [Paid]
      else []
  }

  predicate CanTransition(from: Option<string>, to: Option<string>)
  {
    to.Some? && to.value in Targets(from)
  }

  /** How far along the workflow a state is; the three terminal states are last. */
  function Stage(s: Option<string>): nat
  {
    if s == Some(Draft) then 0
    else if s == Some(Pending) then 1
    else if s == Some(Approved) then 2
    else 3
  }

  /** Only draft, pending and approved expenses can move at all; rejected,
      paid, cancelled and unknown or missing states are final. */
  lemma MovableStates(from: Option<string>)
    ensures (exists to :: CanTransition(from, to))
      <==> from == Some(Draft) || from == Some(Pending) || from == Some(Approved)
  {
    if from == Some(Draft) {
      assert CanTransition(from, Some(Pending));
    } else if from == Some(Pending) {
      assert CanTransition(from, Some(Approved));
    } else if from == Some(Approved) {
      assert CanTransition(from, Some(Paid));
    }
  }

  /** Every transition moves strictly forward, so no state is ever entered
      twice and in particular no state has a self-transition. */
  lemma TransitionsMoveForward(from: Option<string>, to: Option<string>)
    requires CanTransition(from, to)
    ensures Stage(from) < Stage(to)
    ensures from != to
  {
  }

  // -------------------------------------------------------------- new state

  /** The state an action leads to, for the five known actions. */
  function ActionTarget(action: string): (t: Option<string>)
    ensures t.Some? <==> action in ["submit", "approve", "reject", "cancel", "mark_paid"]
  {
    if action == "submit" then Some(Pending)
    else if action == "approve" then Some(Approved)
    else if action == "reject" then Some(Rejected)
    else if action == "cancel" then Some(Cancelled)
    else if action == "mark_paid" then Some(Paid)
    else None
  }

  /** `transitions[action] || currentState` */
  function GetNewState(current: Option<string>, action: string): (s: Option<string>)
    ensures ActionTarget(action).Some? ==> s == ActionTarget(action)
    ensures ActionTarget(action).None? ==> s == current
  {
    match ActionTarget(action)
    case Some(t) => Some(t)
    case None => current
  }

  // -------------------------------------------------------------- validation

  datatype ApprovalCheck = ApprovalCheck(valid: bool, errors: seq<string>)

  const ApproverOnlyError := "Only administrators and managers " + "can approve/reject expenses"
  const SelfApprovalError := "You cannot approve your own expense"
  const SubmitterOnlyError := "Only the submitter can perform this action"
  const AdminOnlyPaidError := "Only administrators can mark expenses as paid"

  function StateError(action: string, status: Option<string>): string
  {
    "Cannot " + action + " expense in " + Show(status) + " state"
  }

  predicate IsApprover(user: Record)
  {
    Get(user, "role") == Some("admin") || Get(user, "role") == Some("manager")
  }

  /** `expense.submittedBy === currentUser.username`; two missing fields are
      equal too. */
  predicate IsSubmitter(expense: Record, user: Record)
  {
    Get(expense, "submittedBy") == Get(user, "username")
  }

  predicate Decides(action: string)
  {
    action == "approve" || action == "reject"
  }

  predicate OwnsAction(action: string)
  {
    action == "submit" || action == "cancel"
  }

  /** `validateApprovalAction`: each check that fails adds its own message,
      in this order. */
  function ValidateApprovalAction(expense: Record, action: string, user: Record): (r: ApprovalCheck)
    ensures r.valid <==> r.errors == []
    ensures |r.errors| <= 3
  {
    var errors := ApprovalErrors(expense, action, user);
    ApprovalCheck(|errors| == 0, errors)
  }

  function ApprovalErrors(expense: Record, action: string, user: Record): seq<string>
  {
    StateErrors(expense, action) + RoleErrors(expense, action, user)
    + (if OwnsAction(action) && !IsSubmitter(expense, user) then [SubmitterOnlyError] else [])
    + (if action == "mark_paid" && Get(user, "role") != Some("admin") then [AdminOnlyPaidError] else [])
  }

  function StateErrors(expense: Record, action: string): seq<string>
  {
    var status := Get(expense, "status");
    if !CanTransition(status, GetNewState(status, action)) then [StateError(action, status)] else []
  }

  function RoleErrors(expense: Record, action: string, user: Record): seq<string>
  {
    (if Decides(action) && !IsApprover(user) then [ApproverOnlyError] else [])
    + (if Decides(action) && IsSubmitter(expense, user) then [SelfApprovalError] else [])
  }

  lemma StateErrorDistinct(action: string, status: Option<string>)
    ensures StateError(action, status) != ApproverOnlyError
    ensures StateError(action, status) != SelfApprovalError
    ensures StateError(action, status) != SubmitterOnlyError
    ensures StateError(action, status) != AdminOnlyPaidError
  {
    assert StateError(action, status)[0] == 'C';
    assert ApproverOnlyError[0] == 'O';
    assert SelfApprovalError[0] == 'Y';
    assert SubmitterOnlyError[0] == 'O';
    assert AdminOnlyPaidError[0] == 'O';
  }

  /** Each message is present exactly when its own check fails, so
      independent violations are all reported. */
  lemma ValidationErrorsIff(expense: Record, action: string, user: Record)
    ensures var r := ValidateApprovalAction(expense, action, user);
      var status := Get(expense, "status");
      (StateError(action, status) in r.errors <==> !CanTransition(status, GetNewState(status, action)))
      && (ApproverOnlyError in r.errors <==> Decides(action) && !IsApprover(user))
      && (SelfApprovalError in r.errors <==> Decides(action) && IsSubmitter(expense, user))
      && (SubmitterOnlyError in r.errors <==> OwnsAction(action) && !IsSubmitter(expense, user))
      && (AdminOnlyPaidError in r.errors <==> action == "mark_paid" && Get(user, "role") != Some("admin"))
  {
    var status := Get(expense, "status");
    StateErrorDistinct(action, status);
    MessagesDistinct();
    var bad := !CanTransition(status, GetNewState(status, action));
    var notApprover := Decides(action) && !IsApprover(user);
    var own := Decides(action) && IsSubmitter(expense, user);
    var notSubmitter := OwnsAction(action) && !IsSubmitter(expense, user);
    var notAdmin := action == "mark_paid" && Get(user, "role") != Some("admin");
    assert ApprovalErrors(expense, action, user)
           == Flagged(bad, StateError(action, status), notApprover, own, notSubmitter, notAdmin);
    FlaggedIff(bad, StateError(action, status), notApprover, own, notSubmitter, notAdmin);
  }

  /** The error list built from the outcome of each check. */
  function Flagged(bad: bool, stateError: string, notApprover: bool, own: bool, notSubmitter: bool, notAdmin: bool)
    : seq<string>
  {
    (if bad then [stateError] else [])
    + ((if notApprover then [ApproverOnlyError] else []) + (if own then [SelfApprovalError] else []))
    + (if notSubmitter then [SubmitterOnlyError] else [])
    + (if notAdmin then [AdminOnlyPaidError] else [])
  }

  lemma FlaggedIff(bad: bool, stateError: string, notApprover: bool, own: bool, notSubmitter: bool, notAdmin: bool)
    requires stateError != ApproverOnlyError && stateError != SelfApprovalError
    requires stateError != SubmitterOnlyError && stateError != AdminOnlyPaidError
    ensures var r := Flagged(bad, stateError, notApprover, own, notSubmitter, notAdmin);
            (stateError in r <==> bad) && (ApproverOnlyError in r <==> notApprover)
            && (SelfApprovalError in r <==> own) && (SubmitterOnlyError in r <==> notSubmitter)
            && (AdminOnlyPaidError in r <==> notAdmin)
  {
    MessagesDistinct();
  }

  /** The four fixed messages differ from one another. */
  lemma MessagesDistinct()
    ensures ApproverOnlyError != SelfApprovalError && ApproverOnlyError != SubmitterOnlyError
    ensures ApproverOnlyError != AdminOnlyPaidError && SelfApprovalError != SubmitterOnlyError
    ensures SelfApprovalError != AdminOnlyPaidError && SubmitterOnlyError != AdminOnlyPaidError
  {
    assert |ApproverOnlyError| == 60 && |SelfApprovalError| == 35;
    assert |SubmitterOnlyError| == 42 && |AdminOnlyPaidError| == 45;
  }

  /** An action outside the five known ones leaves the state where it is,
      and since no state may move to itself the action always fails. */
  lemma UnknownActionFails(expense: Record, action: string, user: Record)
    requires ActionTarget(action).None?
    ensures !ValidateApprovalAction(expense, action, user).valid
  {
  }

  /** Approving or rejecting one's own expense always fails with the
      self-approval message, whatever the role. */
  lemma SelfApprovalFails(expense: Record, action: string, user: Record)
    requires Decides(action) && IsSubmitter(expense, user)
    ensures SelfApprovalError in ValidateApprovalAction(expense, action, user).errors
    ensures !ValidateApprovalAction(expense, action, user).valid
  {
    ValidationErrorsIff(expense, action, user);
  }

  /** What a valid action needs: a legal transition, and the role or
      ownership its kind of action demands. */
  lemma ValidActionNeeds(expense: Record, action: string, user: Record)
    requires ValidateApprovalAction(expense, action, user).valid
    ensures ActionTarget(action).Some?
    ensures CanTransition(Get(expense, "status"), ActionTarget(action))
    ensures Decides(action) ==> IsApprover(user) && !IsSubmitter(expense, user)
    ensures OwnsAction(action) ==> IsSubmitter(expense, user)
    ensures action == "mark_paid" ==> Get(user, "role") == Some("admin")
  {
    ValidationErrorsIff(expense, action, user);
  }

  // ------------------------------------------------------- offered actions

  datatype Offer = Offer(action: string, caption: string, color: string)

  /** `expense.status || 'draft'` */
  function CurrentState(expense: Record): string
  {
    if Truthy(expense, "status") then expense["status"] else Draft
  }

  /** `getAvailableActions`: submitter actions first, then approver actions. */
  function GetAvailableActions(expense: Record, user: Record): (offers: seq<Offer>)
    ensures |offers| <= 3
  {
    SubmitterOffers(CurrentState(expense), IsSubmitter(expense, user))
    + ApproverOffers(CurrentState(expense), IsApprover(user))
  }

  function SubmitterOffers(state: string, own: bool): seq<Offer>
  {
    (if own && state == Draft then [Offer("submit", "Submit for Approval", "blue")] else [])
    + (if own && (state == Pending || state == Draft) then [Offer("cancel", "Cancel", "gray")] else [])
  }

  function ApproverOffers(state: string, approver: bool): seq<Offer>
  {
    if approver && state == Pending then [Offer("approve", "Approve", "green"), Offer("reject", "Reject", "red")]
    else if approver && state == Approved then [Offer("mark_paid", "Mark as Paid", "blue")]
    else []
  }

  function OfferedActions(offers: seq<Offer>): seq<string>
  {
    seq(|offers|, i requires 0 <= i < |offers| => offers[i].action)
  }

  lemma OfferedActionsAppend(a: seq<Offer>, b: seq<Offer>)
    ensures OfferedActions(a + b) == OfferedActions(a) + OfferedActions(b)
  {
  }

  lemma SubmitterActions(state: string, own: bool)
    ensures OfferedActions(SubmitterOffers(state, own))
      == (if own && state == Draft then ["submit"] else [])
         + (if own && (state == Pending || state == Draft) then ["cancel"] else [])
  {
    var a := if own && state == Draft then [Offer("submit", "Submit for Approval", "blue")] else [];
    var b := if own && (state == Pending || state == Draft) then [Offer("cancel", "Cancel", "gray")] else [];
    OfferedActionsAppend(a, b);
  }

  lemma ApproverActions(state: string, approver: bool)
    ensures OfferedActions(ApproverOffers(state, approver))
      == if approver && state == Pending then ["approve", "reject"]
         else if approver && state == Approved then ["mark_paid"]
         else []
  {
  }

  lemma ActionsOffered(expense: Record, user: Record)
    ensures var state := CurrentState(expense);
      var own := IsSubmitter(expense, user);
      var approver := IsApprover(user);
      OfferedActions(GetAvailableActions(expense, user))
      == OfferedActions(SubmitterOffers(state, own)) + OfferedActions(ApproverOffers(state, approver))
  {
    OfferedActionsAppend(SubmitterOffers(CurrentState(expense), IsSubmitter(expense, user)),
                         ApproverOffers(CurrentState(expense), IsApprover(user)));
  }

  /** Every offered action leads, from the current state, to a state the
      transition table allows. */
  lemma OffersFollowTable(expense: Record, user: Record)
    ensures var state := Some(CurrentState(expense));
      forall o :: o in GetAvailableActions(expense, user) ==>
        CanTransition(state, GetNewState(state, o.action))
  {
  }

  /** Which actions are offered, exactly. Terminal and unknown states offer
      nothing. */
  lemma OffersIff(expense: Record, user: Record)
    ensures var acts := OfferedActions(GetAvailableActions(expense, user));
      var state := CurrentState(expense);
      ("submit" in acts <==> IsSubmitter(expense, user) && state == Draft)
      && ("cancel" in acts <==> IsSubmitter(expense, user) && (state == Draft || state == Pending))
      && ("approve" in acts <==> IsApprover(user) && state == Pending)
      && ("reject" in acts <==> IsApprover(user) && state == Pending)
      && ("mark_paid" in acts <==> IsApprover(user) && state == Approved)
      && (state != Draft && state != Pending && state != Approved ==> acts == [])
  {
    ActionsOffered(expense, user);
    SubmitterActions(CurrentState(expense), IsSubmitter(expense, user));
    ApproverActions(CurrentState(expense), IsApprover(user));
  }

  /** An offered action can still fail validation: an approver is offered
      "approve" on their own pending expense. */
  lemma SelfApprovalOffered(expense: Record, user: Record)
    requires Get(expense, "status") == Some(Pending) && IsApprover(user) && IsSubmitter(expense, user)
    ensures "approve" in OfferedActions(GetAvailableActions(expense, user))
    ensures !ValidateApprovalAction(expense, "approve", user).valid
  {
    OffersIff(expense, user);
    SelfApprovalFails(expense, "approve", user);
  }

  /** A manager is offered "mark_paid", which only an administrator may
      perform. */
  lemma ManagerPaymentOffered(expense: Record, user: Record)
    requires Get(expense, "status") == Some(Approved) && Get(user, "role") == Some("manager")
    ensures "mark_paid" in OfferedActions(GetAvailableActions(expense, user))
    ensures !ValidateApprovalAction(expense, "mark_paid", user).valid
  {
    OffersIff(expense, user);
    ValidationErrorsIff(expense, "mark_paid", user);
  }

  /** An expense without a status counts as a draft when actions are
      offered, but the transition table knows no missing state, so the
      offered "submit" fails. */
  lemma MissingStatusOffered(expense: Record, user: Record)
    requires "status" !in expense && IsSubmitter(expense, user)
    ensures "submit" in OfferedActions(GetAvailableActions(expense, user))
    ensures !ValidateApprovalAction(expense, "submit", user).valid
  {
    OffersIff(expense, user);
  }

  // -------------------------------------------------------- approval record

  /** `createApprovalRecord`; the clock readings are parameters. */
  datatype ApprovalRecord = ApprovalRecord(
    id: string, expenseId: Option<string>, action: string,
    performedBy: Option<string>, performedByName: Option<string>, performedDate: string,
    previousState: Option<string>, newState: Option<string>, notes: string, userRole: Option<string>)

  function CreateApprovalRecord(expense: Record, action: string, user: Record, notes: string,
                                nowMillis: nat, nowIso: string): (r: ApprovalRecord)
    ensures r.previousState == Get(expense, "status")
    ensures r.performedBy == Get(user, "username") && r.userRole == Get(user, "role")
  {
    var status := Get(expense, "status");
    ApprovalRecord("APR-" + NatToString(nowMillis), Get(expense, "id"), action,
                   Get(user, "username"), Get(user, "name"), nowIso,
                   status, GetNewState(status, action), notes, Get(user, "role"))
  }

  /** The record of a valid action describes a legal move to the action's
      target; the record of an unknown action shows no move at all. */
  lemma RecordedStates(expense: Record, action: string, user: Record, notes: string,
                       nowMillis: nat, nowIso: string)
    ensures var r := CreateApprovalRecord(expense, action, user, notes, nowMillis, nowIso);
      (ValidateApprovalAction(expense, action, user).valid ==>
        CanTransition(r.previousState, r.newState) && r.newState == ActionTarget(action))
      && (ActionTarget(action).None? ==> r.newState == r.previousState)
  {
    if ValidateApprovalAction(expense, action, user).valid {
      ValidActionNeeds(expense, action, user);
    }
  }

  // ---------------------------------------------------------------- summary

  datatype Summary = Summary(
    total: nat, draft: nat, pending: nat, approved: nat, rejected: nat, paid: nat, cancelled: nat,
    totalAmount: real, pendingAmount: real, approvedAmount: real)

  /** `parseFloat(exp.amount) || 0` */
  function AmountOrZero(exp: Record): real
  {
    match Get(exp, "amount")
    case None => 0.0
    case Some(s) =>
      match ParseFloat(s)
      case None => 0.0
      case Some(x) => x
  }

  /** One step of the `forEach`: add the amount, then count the status. */
  function Tally(s: Summary, exp: Record): Summary
  {
    Count(s, Get(exp, "status"), AmountOrZero(exp))
  }

  /** One expense of status `status` and amount `amount` added to `s`. */
  function Count(s: Summary, status: Option<string>, amount: real): Summary
  {
    var t := s.(totalAmount := s.totalAmount + amount);
    if status == Some(Draft) then t.(draft := t.draft + 1)
    else if status == Some(Pending) then t.(pending := t.pending + 1, pendingAmount := t.pendingAmount + amount)
    else if status == Some(Approved) then t.(approved := t.approved + 1, approvedAmount := t.approvedAmount + amount)
    else if status == Some(Rejected) then t.(rejected := t.rejected + 1)
    else if status == Some(Paid) then t.(paid := t.paid + 1)
    else if status == Some(Cancelled) then t.(cancelled := t.cancelled + 1)
    else t
  }

  function TallyAll(s: Summary, expenses: seq<Record>): Summary
    decreases |expenses|
  {
    if |expenses| == 0 then s
    else Tally(TallyAll(s, expenses[..|expenses| - 1]), expenses[|expenses| - 1])
  }

  function ApprovalSummary(expenses: seq<Record>): Summary
  {
    TallyAll(Summary(|expenses|, 0, 0, 0, 0, 0, 0, 0.0, 0.0, 0.0), expenses)
  }

  method GetApprovalSummary(expenses: seq<Record>) returns (summary: Summary)
    ensures summary == ApprovalSummary(expenses)
  {
    summary := Summary(|expenses|, 0, 0, 0, 0, 0, 0, 0.0, 0.0, 0.0);
    ghost var start := summary;
    for i := 0 to |expenses|
      invariant summary == TallyAll(start, expenses[..i])
    {
      assert expenses[..i + 1][..i] == expenses[..i];
      var exp := expenses[i];
      var amount := AmountOrZero(exp);
      summary := summary.(totalAmount := summary.totalAmount + amount);
      var status := Get(exp, "status");
      if status == Some(Draft) {
        summary := summary.(draft := summary.draft + 1);
      } else if status == Some(Pending) {
        summary := summary.(pending := summary.pending + 1);
        summary := summary.(pendingAmount := summary.pendingAmount + amount);
      } else if status == Some(Approved) {
        summary := summary.(approved := summary.approved + 1);
        summary := summary.(approvedAmount := summary.approvedAmount + amount);
      } else if status == Some(Rejected) {
        summary := summary.(rejected := summary.rejected + 1);
      } else if status == Some(Paid) {
        summary := summary.(paid := summary.paid + 1);
      } else if status == Some(Cancelled) {
        summary := summary.(cancelled := summary.cancelled + 1);
      }
    }
    assert expenses[..|expenses|] == expenses;
  }

  predicate KnownStatus(exp: Record)
  {
    var s := Get(exp, "status");
    s == Some(Draft) || s == Some(Pending) || s == Some(Approved)
    || s == Some(Rejected) || s == Some(Paid) || s == Some(Cancelled)
  }

  function StateCount(s: Summary): nat
  {
    s.draft + s.pending + s.approved + s.rejected + s.paid + s.cancelled
  }

  /** The number of expenses in `expenses` whose status is unknown or missing. */
  function Unknown(expenses: seq<Record>): nat
    decreases |expenses|
  {
    if |expenses| == 0 then 0
    else Unknown(expenses[..|expenses| - 1]) + if KnownStatus(expenses[|expenses| - 1]) then 0 else 1
  }

  lemma {:induction false} TallyCounts(s: Summary, expenses: seq<Record>)
    ensures StateCount(TallyAll(s, expenses)) + Unknown(expenses) == StateCount(s) + |expenses|
    ensures TallyAll(s, expenses).total == s.total
    decreases |expenses|
  {
    if |expenses| > 0 {
      TallyCounts(s, expenses[..|expenses| - 1]);
    }
  }

  lemma {:induction false} UnknownZero(expenses: seq<Record>)
    ensures Unknown(expenses) == 0 <==> forall i :: 0 <= i < |expenses| ==> KnownStatus(expenses[i])
    decreases |expenses|
  {
    if |expenses| > 0 {
      var init := expenses[..|expenses| - 1];
      UnknownZero(init);
      assert forall i :: 0 <= i < |init| ==> init[i] == expenses[i];
    }
  }

  /** The six state counts never exceed the total, and reach it exactly
      when every status is one of the six states. */
  lemma SummaryCountsBound(expenses: seq<Record>)
    ensures StateCount(ApprovalSummary(expenses)) <= ApprovalSummary(expenses).total == |expenses|
    ensures StateCount(ApprovalSummary(expenses)) == |expenses|
      <==> forall i :: 0 <= i < |expenses| ==> KnownStatus(expenses[i])
  {
    TallyCounts(Summary(|expenses|, 0, 0, 0, 0, 0, 0, 0.0, 0.0, 0.0), expenses);
    UnknownZero(expenses);
  }

  lemma {:induction false} TallyAmounts(s: Summary, expenses: seq<Record>)
    requires forall i :: 0 <= i < |expenses| ==> AmountOrZero(expenses[i]) >= 0.0
    requires s.pendingAmount + s.approvedAmount <= s.totalAmount
    ensures var t := TallyAll(s, expenses);
      t.pendingAmount + t.approvedAmount <= t.totalAmount
    decreases |expenses|
  {
    if |expenses| > 0 {
      var n := |expenses| - 1;
      var init := expenses[..n];
      assert forall i :: 0 <= i < |init| ==> init[i] == expenses[i];
      TallyAmounts(s, init);
      TallyStepAmounts(TallyAll(s, init), expenses[n]);
    }
  }

  /** One expense with a non-negative amount keeps the pending and approved
      amounts within the total. */
  lemma TallyStepAmounts(s: Summary, exp: Record)
    requires AmountOrZero(exp) >= 0.0
    requires s.pendingAmount + s.approvedAmount <= s.totalAmount
    ensures Tally(s, exp).pendingAmount + Tally(s, exp).approvedAmount <= Tally(s, exp).totalAmount
  {
    CountAmounts(s, Get(exp, "status"), AmountOrZero(exp));
  }

  lemma CountAmounts(s: Summary, status: Option<string>, amount: real)
    requires amount >= 0.0
    requires s.pendingAmount + s.approvedAmount <= s.totalAmount
    ensures var t := Count(s, status, amount);
            t.pendingAmount + t.approvedAmount <= t.totalAmount
  {
  }

  /** With no negative amounts, the pending and approved amounts together
      never exceed the total amount. */
  lemma SummaryAmountsBound(expenses: seq<Record>)
    requires forall i :: 0 <= i < |expenses| ==> AmountOrZero(expenses[i]) >= 0.0
    ensures ApprovalSummary(expenses).pendingAmount + ApprovalSummary(expenses).approvedAmount
      <= ApprovalSummary(expenses).totalAmount
  {
    TallyAmounts(Summary(|expenses|, 0, 0, 0, 0, 0, 0, 0.0, 0.0, 0.0), expenses);
  }

  // --------------------------------------------------------------- timeline

  datatype TimelineEvent = TimelineEvent(
    event: string, date: Option<string>, user: Option<string>,
    icon: string, color: string, notes: Option<string>)

  /** `getExpenseTimeline`: created, submitted when the dates differ,
      approved or else rejected, paid, cancelled. */
  function GetExpenseTimeline(expense: Record): (t: seq<TimelineEvent>)
    ensures 1 <= |t| <= 5
    ensures t[0].event == "Created"
  {
    [TimelineEvent("Created", Get(expense, "submittedDate"), Get(expense, "submittedByName"),
                   "\U{1F4DD}", "blue", None)]
    + SubmittedPart(expense) + DecisionPart(expense) + PaidPart(expense) + CancelledPart(expense)
  }

  function SubmittedPart(expense: Record): (t: seq<TimelineEvent>)
    ensures |t| <= 1
  {
    if Get(expense, "submittedDate") != Get(expense, "createdDate")
    then [TimelineEvent("Submitted for Approval", Get(expense, "submittedDate"),
                        Get(expense, "submittedByName"), "\U{1F4E4}", "blue", None)]
    else []
  }

  function DecisionPart(expense: Record): (t: seq<TimelineEvent>)
    ensures |t| <= 1
  {
    if Truthy(expense, "approvedDate")
    then [TimelineEvent("Approved", Get(expense, "approvedDate"), Get(expense, "approvedByName"),
                        "\U{2705}", "green", Get(expense, "approvalNotes"))]
    else if Truthy(expense, "rejectedDate")
    then [TimelineEvent("Rejected", Get(expense, "rejectedDate"), Get(expense, "rejectedByName"),
                        "\U{274C}", "red", Get(expense, "rejectionReason"))]
    else []
  }

  function PaidPart(expense: Record): (t: seq<TimelineEvent>)
    ensures |t| <= 1
  {
    if Truthy(expense, "paidDate")
    then [TimelineEvent("Payment Processed", Get(expense, "paidDate"), Get(expense, "paidByName"),
                        "\U{1F4B0}", "blue", None)]
    else []
  }

  function CancelledPart(expense: Record): (t: seq<TimelineEvent>)
    ensures |t| <= 1
  {
    if Truthy(expense, "cancelledDate")
    then [TimelineEvent("Cancelled", Get(expense, "cancelledDate"), Get(expense, "cancelledByName"),
                        "\U{1F6AB}", "gray", Get(expense, "cancellationReason"))]
    else []
  }

  function Events(t: seq<TimelineEvent>): seq<string>
  {
    seq(|t|, i requires 0 <= i < |t| => t[i].event)
  }

  lemma EventsAppend(a: seq<TimelineEvent>, b: seq<TimelineEvent>)
    ensures Events(a + b) == Events(a) + Events(b)
  {
  }

  lemma SinglePart(t: seq<TimelineEvent>)
    requires |t| <= 1
    ensures Events(t) == if |t| == 0 then [] else [t[0].event]
  {
  }

  lemma EventsOfParts(expense: Record)
    ensures Events(GetExpenseTimeline(expense))
      == ["Created"] + Events(SubmittedPart(expense)) + Events(DecisionPart(expense))
         + Events(PaidPart(expense)) + Events(CancelledPart(expense))
  {
    var c := [TimelineEvent("Created", Get(expense, "submittedDate"), Get(expense, "submittedByName"),
                            "\U{1F4DD}", "blue", None)];
    var s1 := SubmittedPart(expense);
    var s2 := DecisionPart(expense);
    var s3 := PaidPart(expense);
    var s4 := CancelledPart(expense);
    EventsAppend(c, s1);
    EventsAppend(c + s1, s2);
    EventsAppend(c + s1 + s2, s3);
    EventsAppend(c + s1 + s2 + s3, s4);
  }

  /** The event names of a timeline, in terms of which parts are present. */
  function EventNames(submitted: bool, approved: bool, rejected: bool, paid: bool, cancelled: bool): seq<string>
  {
    Names("Created", "Submitted for Approval", "Approved", "Rejected", "Payment Processed", "Cancelled",
          submitted, approved, rejected, paid, cancelled)
  }

  /** The same list for any six names. */
  function Names(c: string, s: string, a: string, r: string, p: string, k: string,
                 submitted: bool, approved: bool, rejected: bool, paid: bool, cancelled: bool): seq<string>
  {
    [c] + ((if submitted then [s] else [])
           + ((if approved then [a] else if rejected then [r] else [])
              + ((if paid then [p] else []) + (if cancelled then [k] else []))))
  }

  lemma NamesMembers(c: string, s: string, a: string, r: string, p: string, k: string,
                     submitted: bool, approved: bool, rejected: bool, paid: bool, cancelled: bool)
    requires c != s && c != a && c != r && c != p && c != k
    requires s != a && s != r && s != p && s != k
    requires a != r && a != p && a != k && r != p && r != k && p != k
    ensures var ev := Names(c, s, a, r, p, k, submitted, approved, rejected, paid, cancelled);
      ev[0] == c && c !in ev[1..]
      && (s in ev <==> submitted)
      && (a in ev <==> approved)
      && (r in ev <==> !approved && rejected)
      && (p in ev <==> paid)
      && (k in ev <==> cancelled)
  {
    var ps := if submitted then [s] else [];
    var pd := if approved then [a] else if rejected then [r] else [];
    var pp := if paid then [p] else [];
    var pk := if cancelled then [k] else [];
    assert c !in ps && a !in ps && r !in ps && p !in ps && k !in ps && (s in ps <==> submitted);
    assert c !in pd && s !in pd && p !in pd && k !in pd && (a in pd <==> approved) && (r in pd <==> !approved && rejected);
    assert c !in pp && s !in pp && a !in pp && r !in pp && k !in pp && (p in pp <==> paid);
    assert c !in pk && s !in pk && a !in pk && r !in pk && p !in pk && (k in pk <==> cancelled);
    var ev := Names(c, s, a, r, p, k, submitted, approved, rejected, paid, cancelled);
    assert ev[1..] == ps + (pd + (pp + pk));
    PartsMembers(c, ps, pd, pp, pk);
    PartsMembers(s, ps, pd, pp, pk);
    PartsMembers(a, ps, pd, pp, pk);
    PartsMembers(r, ps, pd, pp, pk);
    PartsMembers(p, ps, pd, pp, pk);
    PartsMembers(k, ps, pd, pp, pk);
  }

  lemma PartsMembers(x: string, s: seq<string>, d: seq<string>, p: seq<string>, c: seq<string>)
    ensures x in s + (d + (p + c)) <==> x in s || x in d || x in p || x in c
  {
  }

  lemma EventNamesMembers(submitted: bool, approved: bool, rejected: bool, paid: bool, cancelled: bool)
    ensures var ev := EventNames(submitted, approved, rejected, paid, cancelled);
      ev[0] == "Created" && "Created" !in ev[1..]
      && ("Submitted for Approval" in ev <==> submitted)
      && ("Approved" in ev <==> approved)
      && ("Rejected" in ev <==> !approved && rejected)
      && ("Payment Processed" in ev <==> paid)
      && ("Cancelled" in ev <==> cancelled)
  {
    EventNamesDistinct();
    NamesMembers("Created", "Submitted for Approval", "Approved", "Rejected", "Payment Processed", "Cancelled",
                 submitted, approved, rejected, paid, cancelled);
  }

  /** The six event names differ from one another. */
  lemma EventNamesDistinct()
    ensures "Created" != "Submitted for Approval" && "Created" != "Approved" && "Created" != "Rejected" && "Created" != "Payment Processed" && "Created" != "Cancelled"
    ensures "Submitted for Approval" != "Approved" && "Submitted for Approval" != "Rejected" && "Submitted for Approval" != "Payment Processed" && "Submitted for Approval" != "Cancelled"
    ensures "Approved" != "Rejected" && "Approved" != "Payment Processed" && "Approved" != "Cancelled"
    ensures "Rejected" != "Payment Processed" && "Rejected" != "Cancelled"
    ensures "Payment Processed" != "Cancelled"
  {
    assert |"Created"| == 7 && |"Submitted for Approval"| == 22 && |"Approved"| == 8;
    assert |"Rejected"| == 8 && |"Payment Processed"| == 17 && |"Cancelled"| == 9;
    assert "Approved"[0] != "Rejected"[0];
  }

  /** Which events appear, exactly; an approval hides a rejection, so the
      two never appear together; "Created" is first and appears once. */
  lemma TimelineEvents(expense: Record)
    ensures var ev := Events(GetExpenseTimeline(expense));
      ev[0] == "Created" && "Created" !in ev[1..]
      && ("Submitted for Approval" in ev <==> Get(expense, "submittedDate") != Get(expense, "createdDate"))
      && ("Approved" in ev <==> Truthy(expense, "approvedDate"))
      && ("Rejected" in ev <==> !Truthy(expense, "approvedDate") && Truthy(expense, "rejectedDate"))
      && ("Payment Processed" in ev <==> Truthy(expense, "paidDate"))
      && ("Cancelled" in ev <==> Truthy(expense, "cancelledDate"))
      && !("Approved" in ev && "Rejected" in ev)
  {
    EventsOfParts(expense);
    PartNames(expense);
    Regroup(["Created"], Events(SubmittedPart(expense)), Events(DecisionPart(expense)),
            Events(PaidPart(expense)), Events(CancelledPart(expense)));
    EventNamesMembers(Get(expense, "submittedDate") != Get(expense, "createdDate"), Truthy(expense, "approvedDate"),
                      Truthy(expense, "rejectedDate"), Truthy(expense, "paidDate"), Truthy(expense, "cancelledDate"));
  }

  /** The event name each optional part contributes. */
  lemma PartNames(expense: Record)
    ensures Events(SubmittedPart(expense))
            == if Get(expense, "submittedDate") != Get(expense, "createdDate") then ["Submitted for Approval"] else []
    ensures Events(DecisionPart(expense))
            == if Truthy(expense, "approvedDate") then ["Approved"]
               else if Truthy(expense, "rejectedDate") then ["Rejected"] else []
    ensures Events(PaidPart(expense)) == if Truthy(expense, "paidDate") then ["Payment Processed"] else []
    ensures Events(CancelledPart(expense)) == if Truthy(expense, "cancelledDate") then ["Cancelled"] else []
  {
    SinglePart(SubmittedPart(expense));
    SinglePart(DecisionPart(expense));
    SinglePart(PaidPart(expense));
    SinglePart(CancelledPart(expense));
  }

  lemma Regroup(a: seq<string>, b: seq<string>, c: seq<string>, d: seq<string>, e: seq<string>)
    ensures a + b + c + d + e == a + (b + (c + (d + e)))
  {
  }
}

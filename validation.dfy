/** The business rules applied to expenses and import rows: amount ranges,
    duplicate detection, payroll bank-detail checks, bulk-row checks and
    the IFSC and date format predicates (src/utils/validation.js). */
module Validation {
  import opened Js
  import opened Constants

  // --------------------------------------------------------- amount ranges

  datatype AmountWarning =
    | InvalidAmount
    | BelowMin(min: real)
    | AboveMax(max: real)
    | AboveAlert(threshold: real)

  /** The result of `validateExpenseAmount`. */
  datatype AmountCheck = AmountCheck(valid: bool, warnings: seq<AmountWarning>)

  /** `bound && amt < bound` style guard: a bound of 0 is falsy and skipped. */
  function BelowWarning(c: ExpenseType, amt: real): seq<AmountWarning>
  {
    if c.minAmount != 0.0 && amt < c.minAmount then [BelowMin(c.minAmount)] else []
  }

  function AboveWarning(c: ExpenseType, amt: real): seq<AmountWarning>
  {
    if c.maxAmount != 0.0 && amt > c.maxAmount then [AboveMax(c.maxAmount)] else []
  }

  function AlertWarning(c: ExpenseType, amt: real): seq<AmountWarning>
  {
    if c.alertThreshold.Some? && c.alertThreshold.value != 0.0 && amt > c.alertThreshold.value
    then [AboveAlert(c.alertThreshold.value)] else []
  }

  /** `validateExpenseAmount(type, amount)`: no check for a type outside the
      table, `Invalid amount` for text that does not parse, otherwise one
      warning per breached bound, in the order min, max, alert threshold. */
  function ValidateExpenseAmount(expenseType: string, amount: string): (r: AmountCheck)
    ensures ExpenseTypeOf(expenseType).None? ==> r == AmountCheck(true, [])
    ensures ExpenseTypeOf(expenseType).Some? && ParseFloat(amount).None? ==> r == AmountCheck(false, [InvalidAmount])
    ensures r.valid <==> r.warnings == []
    ensures |r.warnings| <= 3
  {
    if ExpenseTypeOf(expenseType).None? then AmountCheck(true, [])
    else
      match ParseFloat(amount)
      case None => AmountCheck(false, [InvalidAmount])
      case Some(amt) =>
        var c := ExpenseTypeOf(expenseType).value;
        var warnings := BelowWarning(c, amt) + AboveWarning(c, amt) + AlertWarning(c, amt);
        AmountCheck(|warnings| == 0, warnings)
  }

  /** For a parsed amount, each bound the amount breaches contributes
      exactly one warning and nothing else does. */
  lemma AmountWarningsIff(expenseType: string, amount: string, amt: real)
    requires ExpenseTypeOf(expenseType).Some? && ParseFloat(amount) == Some(amt)
    ensures var c := ExpenseTypeOf(expenseType).value;
            var ws := ValidateExpenseAmount(expenseType, amount).warnings;
            (BelowMin(c.minAmount) in ws <==> c.minAmount != 0.0 && amt < c.minAmount)
            && (AboveMax(c.maxAmount) in ws <==> c.maxAmount != 0.0 && amt > c.maxAmount)
            && (c.alertThreshold.Some? ==>
                 (AboveAlert(c.alertThreshold.value) in ws <==> c.alertThreshold.value != 0.0 && amt > c.alertThreshold.value))
            && InvalidAmount !in ws
            && |ws| == (if c.minAmount != 0.0 && amt < c.minAmount then 1 else 0)
                       + (if c.maxAmount != 0.0 && amt > c.maxAmount then 1 else 0)
                       + (if c.alertThreshold.Some? && c.alertThreshold.value != 0.0 && amt > c.alertThreshold.value then 1 else 0)
  {
    ParsedAmount(expenseType, amount, amt);
    BoundWarnings(ExpenseTypeOf(expenseType).value, amt);
  }

  /** The three bound checks of one table entry, whatever entry it is. */
  lemma BoundWarnings(c: ExpenseType, amt: real)
    ensures var ws := BelowWarning(c, amt) + AboveWarning(c, amt) + AlertWarning(c, amt);
            (BelowMin(c.minAmount) in ws <==> c.minAmount != 0.0 && amt < c.minAmount)
            && (AboveMax(c.maxAmount) in ws <==> c.maxAmount != 0.0 && amt > c.maxAmount)
            && (c.alertThreshold.Some? ==>
                 (AboveAlert(c.alertThreshold.value) in ws <==> c.alertThreshold.value != 0.0 && amt > c.alertThreshold.value))
            && InvalidAmount !in ws
            && |ws| == (if c.minAmount != 0.0 && amt < c.minAmount then 1 else 0)
                       + (if c.maxAmount != 0.0 && amt > c.maxAmount then 1 else 0)
                       + (if c.alertThreshold.Some? && c.alertThreshold.value != 0.0 && amt > c.alertThreshold.value then 1 else 0)
  {
  }

  /** The unfolding step behind `AmountWarningsIff`: for a parsed amount
      against a known type it only fixes the order of the warnings, below
      the minimum, then above the maximum, then above the alert threshold. */
  lemma ParsedAmount(expenseType: string, amount: string, amt: real)
    requires ExpenseTypeOf(expenseType).Some? && ParseFloat(amount) == Some(amt)
    ensures var c := ExpenseTypeOf(expenseType).value;
            var ws := BelowWarning(c, amt) + AboveWarning(c, amt) + AlertWarning(c, amt);
            ValidateExpenseAmount(expenseType, amount) == AmountCheck(|ws| == 0, ws)
  {
  }

  /** A four-digit amount parses to its value. */
  lemma ParseFourDigits(s: string, v: nat)
    requires |s| == 4 && forall i :: 0 <= i < 4 ==> IsDigit(s[i])
    requires v == DigitValue(s[0]) * 1000 + DigitValue(s[1]) * 100 + DigitValue(s[2]) * 10 + DigitValue(s[3])
    ensures ParseFloat(s) == Some(v as real)
  {
    ParseDigits(s);
    assert DigitsValue(s) == DigitsValue(s[..3]) * 10 + DigitValue(s[3]);
    assert DigitsValue(s[..3]) == DigitsValue(s[..2]) * 10 + DigitValue(s[2]) by {
      assert s[..3][..2] == s[..2];
    }
    assert DigitsValue(s[..2]) == DigitsValue(s[..1]) * 10 + DigitValue(s[1]) by {
      assert s[..2][..1] == s[..1];
    }
    assert DigitsValue(s[..1]) == DigitValue(s[0]) by {
      assert s[..1][..0] == [];
    }
  }

  lemma Parse5000()
    ensures ParseFloat("5000") == Some(5000.0)
  {
    assert forall i :: 0 <= i < 4 ==> IsDigit("5000"[i]);
    ParseFourDigits("5000", 5000);
  }

  lemma Parse6000()
    ensures ParseFloat("6000") == Some(6000.0)
  {
    assert forall i :: 0 <= i < 4 ==> IsDigit("6000"[i]);
    ParseFourDigits("6000", 6000);
  }

  /** Petrol at 5000 (for instance the text "5000", see `Parse5000`) is
      only above its normal range (max 3000). */
  lemma PetrolAt5000(amount: string)
    requires ParseFloat(amount) == Some(5000.0)
    ensures ValidateExpenseAmount("Petrol", amount) == AmountCheck(false, [AboveMax(3000.0)])
  {
    ParsedAmount("Petrol", amount, 5000.0);
    var c := ExpenseTypeOf("Petrol").value;
    assert c == ExpenseType("Petrol A/c", None, 0.0, 1.0, 3000.0, "Operating Expense", None);
    assert BelowWarning(c, 5000.0) == [] && AlertWarning(c, 5000.0) == [];
    assert AboveWarning(c, 5000.0) == [AboveMax(3000.0)];
  }

  /** "Other" at 6000 (for instance the text "6000", see `Parse6000`)
      breaches both its maximum and its alert threshold. */
  lemma OtherAt6000(amount: string)
    requires ParseFloat(amount) == Some(6000.0)
    ensures ValidateExpenseAmount("Other", amount) == AmountCheck(false, [AboveMax(5000.0), AboveAlert(5000.0)])
  {
    ParsedAmount("Other", amount, 6000.0);
    var c := ExpenseTypeOf("Other").value;
    assert c == ExpenseType("Miscellaneous Expenses A/c", None, 0.0, 0.0, 5000.0, "Miscellaneous", Some(5000.0));
    assert BelowWarning(c, 6000.0) == [];
    assert AboveWarning(c, 6000.0) == [AboveMax(5000.0)];
    assert AlertWarning(c, 6000.0) == [AboveAlert(5000.0)];
  }

  // ----------------------------------------------------------- duplicates

  /** `parseFloat(exp.amount)`, a missing field being `NaN`. */
  function AmountOf(r: Record): Option<real>
  {
    if "amount" in r then ParseFloat(r["amount"]) else None
  }

  /** The filter predicate of `checkDuplicateExpense`. Fields are compared
      with `===`, so two missing fields count as equal; a `NaN` amount never
      matches. */
  predicate IsDuplicate(newExpense: Record, exp: Record)
  {
    Get(exp, "status") != Some("rejected")
    && Get(exp, "date") == Get(newExpense, "date")
    && Get(exp, "type") == Get(newExpense, "type")
    && AmountOf(exp).Some? && AmountOf(newExpense).Some?
    && -0.01 < AmountOf(exp).value - AmountOf(newExpense).value < 0.01
    && Get(exp, "payeeName") == Get(newExpense, "payeeName")
  }

  function Duplicates(newExpense: Record, existing: seq<Record>): seq<Record>
    decreases |existing|
  {
    if |existing| == 0 then []
    else
      var last := existing[|existing| - 1];
      Duplicates(newExpense, existing[..|existing| - 1]) + (if IsDuplicate(newExpense, last) then [last] else [])
  }

  /** `checkDuplicateExpense(newExpense, existingExpenses)`: `null` when
      nothing matches. */
  function CheckDuplicateExpense(newExpense: Record, existing: seq<Record>): (r: Option<seq<Record>>)
    ensures r.None? <==> Duplicates(newExpense, existing) == []
    ensures r.Some? ==> r.value == Duplicates(newExpense, existing)
  {
    var duplicates := Duplicates(newExpense, existing);
    if |duplicates| > 0 then Some(duplicates) else None
  }

  /** The duplicates are the existing expenses that match, in list order:
      never a rejected one, and each with the same date, type, payee and an
      amount within 0.01. */
  lemma {:induction false} DuplicatesIff(newExpense: Record, existing: seq<Record>, e: Record)
    ensures e in Duplicates(newExpense, existing) <==> e in existing && IsDuplicate(newExpense, e)
    ensures multiset(Duplicates(newExpense, existing))[e] == if IsDuplicate(newExpense, e) then multiset(existing)[e] else 0
    ensures IsSubsequence(Duplicates(newExpense, existing), existing)
    decreases |existing|
  {
    if |existing| > 0 {
      var init := existing[..|existing| - 1];
      var last := existing[|existing| - 1];
      DuplicatesIff(newExpense, init, e);
      InitLast(existing);
      assert multiset(existing) == multiset(init) + multiset{last};
      var before := Duplicates(newExpense, init);
      if IsDuplicate(newExpense, last) {
        assert Duplicates(newExpense, existing) == before + [last];
        SubsequenceKeep(before, init, last);
      } else {
        assert Duplicates(newExpense, existing) == before;
        SubsequenceSkip(before, init, last);
      }
    }
  }

  /** No rejected expense is ever reported as a duplicate. */
  lemma RejectedNeverDuplicate(newExpense: Record, existing: seq<Record>)
    ensures var r := CheckDuplicateExpense(newExpense, existing);
            r.Some? ==> forall e :: e in r.value ==> e in existing && Get(e, "status") != Some("rejected")
  {
    forall e | e in Duplicates(newExpense, existing)
      ensures e in existing && Get(e, "status") != Some("rejected")
    {
      DuplicatesIff(newExpense, existing, e);
    }
  }

  // ------------------------------------------------------ payroll checks

  /** `parseFloat(emp[key] || 0)`: a falsy field reads as 0. */
  function PayOf(emp: Record, isWeekly: bool): Option<real>
  {
    var key := if isWeekly then "Gross Pay" else "Take Home";
    if Truthy(emp, key) then ParseFloat(emp[key]) else Some(0.0)
  }

  predicate HasEarnings(emp: Record, isWeekly: bool)
  {
    PayOf(emp, isWeekly).Some? && PayOf(emp, isWeekly).value > 0.0
  }

  function EmployeeMessage(idx: nat, emp: Record, what: string): string
  {
    "Row " + NatToString(idx + 2) + ": " + Show(Get(emp, "Name")) + " has earnings but missing " + what
  }

  /** The errors for the employee at index `idx`. */
  function EmployeeErrors(idx: nat, emp: Record, isWeekly: bool): (errs: seq<string>)
    ensures |errs| <= 3
  {
    if !HasEarnings(emp, isWeekly) then []
    else FieldError(idx, emp, "Bank Account No", "bank account number")
         + FieldError(idx, emp, "IFSC Code", "IFSC code")
         + FieldError(idx, emp, "Bank Name", "bank name")
  }

  function FieldError(idx: nat, emp: Record, key: string, what: string): seq<string>
  {
    if Truthy(emp, key) then [] else [EmployeeMessage(idx, emp, what)]
  }

  /** The errors for the whole list, row by row. */
  function PayrollErrors(employees: seq<Record>, isWeekly: bool): seq<string>
    decreases |employees|
  {
    if |employees| == 0 then []
    else
      var n := |employees| - 1;
      PayrollErrors(employees[..n], isWeekly) + EmployeeErrors(n, employees[n], isWeekly)
  }

  /** `validateEmployeeData(employees, isWeekly)` */
  method ValidateEmployeeData(employees: seq<Record>, isWeekly: bool) returns (errors: seq<string>)
    ensures errors == PayrollErrors(employees, isWeekly)
  {
    errors := [];
    for idx := 0 to |employees|
      invariant errors == PayrollErrors(employees[..idx], isWeekly)
    {
      var emp := employees[idx];
      ghost var before := errors;
      var takeHome := PayOf(emp, isWeekly);
      if takeHome.Some? && takeHome.value > 0.0 {
        if !Truthy(emp, "Bank Account No") {
          errors := errors + [EmployeeMessage(idx, emp, "bank account number")];
        }
        ghost var a := FieldError(idx, emp, "Bank Account No", "bank account number");
        assert errors == before + a;
        if !Truthy(emp, "IFSC Code") {
          errors := errors + [EmployeeMessage(idx, emp, "IFSC code")];
        }
        ghost var b := FieldError(idx, emp, "IFSC Code", "IFSC code");
        assert errors == before + a + b;
        if !Truthy(emp, "Bank Name") {
          errors := errors + [EmployeeMessage(idx, emp, "bank name")];
        }
        ghost var c := FieldError(idx, emp, "Bank Name", "bank name");
        assert errors == before + a + b + c;
        ConcatAssoc(before, a, b, c);
      }
      assert errors == before + EmployeeErrors(idx, emp, isWeekly);
      assert employees[..idx + 1][..idx] == employees[..idx];
    }
    assert employees[..|employees|] == employees;
  }

  lemma ConcatAssoc(w: seq<string>, x: seq<string>, y: seq<string>, z: seq<string>)
    ensures w + x + y + z == w + (x + y + z)
  {
  }

  predicate BankDetailsComplete(emp: Record)
  {
    Truthy(emp, "Bank Account No") && Truthy(emp, "IFSC Code") && Truthy(emp, "Bank Name")
  }

  lemma EmployeeCleanIff(idx: nat, emp: Record, isWeekly: bool)
    ensures EmployeeErrors(idx, emp, isWeekly) == [] <==> (HasEarnings(emp, isWeekly) ==> BankDetailsComplete(emp))
  {
    if HasEarnings(emp, isWeekly) {
      var a := FieldError(idx, emp, "Bank Account No", "bank account number");
      var b := FieldError(idx, emp, "IFSC Code", "IFSC code");
      var c := FieldError(idx, emp, "Bank Name", "bank name");
      assert |a + b + c| == |a| + |b| + |c|;
    }
  }

  /** An employee with positive pay has all three bank details. */
  predicate PaidComplete(emp: Record, isWeekly: bool)
  {
    HasEarnings(emp, isWeekly) ==> BankDetailsComplete(emp)
  }

  /** Every employee with positive pay has all three bank details. */
  predicate AllPaidComplete(employees: seq<Record>, isWeekly: bool)
  {
    forall i :: 0 <= i < |employees| ==> PaidComplete(employees[i], isWeekly)
  }

  /** A property holds of every element exactly when it holds of every
      element but the last, and of the last. */
  lemma EverySnoc<T>(xs: seq<T>, ys: seq<T>, x: T, p: T -> bool)
    requires xs == ys + [x]
    ensures (forall i :: 0 <= i < |xs| ==> p(xs[i])) <==> (forall i :: 0 <= i < |ys| ==> p(ys[i])) && p(x)
  {
    assert forall i :: 0 <= i < |ys| ==> xs[i] == ys[i];
    assert xs[|ys|] == x;
  }

  lemma AllPaidCompleteSnoc(employees: seq<Record>, isWeekly: bool)
    requires |employees| > 0
    ensures var n := |employees| - 1;
            AllPaidComplete(employees, isWeekly)
            <==> AllPaidComplete(employees[..n], isWeekly) && PaidComplete(employees[n], isWeekly)
  {
    var n := |employees| - 1;
    EverySnoc(employees, employees[..n], employees[n], e => PaidComplete(e, isWeekly));
  }

  /** The payroll is clean exactly when every employee with positive pay has
      all three bank details. */
  lemma {:induction false} PayrollCleanIff(employees: seq<Record>, isWeekly: bool)
    ensures PayrollErrors(employees, isWeekly) == [] <==> AllPaidComplete(employees, isWeekly)
    decreases |employees|
  {
    if |employees| > 0 {
      var n := |employees| - 1;
      PayrollCleanIff(employees[..n], isWeekly);
      EmployeeCleanIff(n, employees[n], isWeekly);
      AllPaidCompleteSnoc(employees, isWeekly);
    }
  }

  /** At most three errors per employee. */
  lemma {:induction false} PayrollErrorsBound(employees: seq<Record>, isWeekly: bool)
    ensures |PayrollErrors(employees, isWeekly)| <= 3 * |employees|
    decreases |employees|
  {
    if |employees| > 0 {
      PayrollErrorsBound(employees[..|employees| - 1], isWeekly);
    }
  }

  // ------------------------------------------------------------- bulk rows

  datatype BulkWarning = UnknownType(expenseType: string) | RangeWarning(w: AmountWarning)

  datatype BulkCheck = BulkCheck(errors: seq<string>, warnings: seq<BulkWarning>)

  function AsBulk(ws: seq<AmountWarning>): (bs: seq<BulkWarning>)
    ensures |bs| == |ws| && forall i :: 0 <= i < |ws| ==> bs[i] == RangeWarning(ws[i])
  {
    seq(|ws|, i requires 0 <= i < |ws| => RangeWarning(ws[i]))
  }

  predicate BadAmount(row: Record)
  {
    !Truthy(row, "Amount") || ParseFloat(row["Amount"]).None?
  }

  /** `validateBulkRow(row, rowNum)`: errors for a missing type, payee or
      amount; a warning for a type outside the table; and, for a known type
      with a non-empty amount, the warnings of `validateExpenseAmount`. */
  function ValidateBulkRow(row: Record, rowNum: int): (r: BulkCheck)
    ensures |r.errors| <= 3
    ensures r.warnings != [] ==> Truthy(row, "Type")
    ensures forall w :: w in r.warnings ==> (w.UnknownType? <==> ExpenseTypeOf(row["Type"]).None?)
  {
    var errors := BulkErrors(row);
    var unknown := if Truthy(row, "Type") && ExpenseTypeOf(row["Type"]).None? then [UnknownType(row["Type"])] else [];
    var range := if Truthy(row, "Type") && Truthy(row, "Amount") && ExpenseTypeOf(row["Type"]).Some?
                 then AsBulk(ValidateExpenseAmount(row["Type"], row["Amount"]).warnings) else [];
    BulkCheck(errors, unknown + range)
  }

  /** The errors of a bulk row, one per failed required field. */
  function BulkErrors(row: Record): seq<string>
  {
    (if Truthy(row, "Type") then [] else ["Missing Type"])
    + (if Truthy(row, "Payee Name") then [] else ["Missing Payee Name"])
    + (if BadAmount(row) then ["Missing or invalid Amount"] else [])
  }

  /** Errors arise exactly from a missing type, a missing payee, or a
      missing or unparsable amount; the type table and the amount range only
      ever add warnings. */
  lemma BulkRowErrorsIff(row: Record, rowNum: int)
    ensures var errs := ValidateBulkRow(row, rowNum).errors;
            ("Missing Type" in errs <==> !Truthy(row, "Type"))
            && ("Missing Payee Name" in errs <==> !Truthy(row, "Payee Name"))
            && ("Missing or invalid Amount" in errs <==> BadAmount(row))
            && (errs == [] <==> Truthy(row, "Type") && Truthy(row, "Payee Name") && !BadAmount(row))
  {
    assert ValidateBulkRow(row, rowNum).errors == BulkErrors(row);
    BulkErrorsIff(row);
  }

  lemma BulkErrorsIff(row: Record)
    ensures var errs := BulkErrors(row);
            ("Missing Type" in errs <==> !Truthy(row, "Type"))
            && ("Missing Payee Name" in errs <==> !Truthy(row, "Payee Name"))
            && ("Missing or invalid Amount" in errs <==> BadAmount(row))
            && (errs == [] <==> Truthy(row, "Type") && Truthy(row, "Payee Name") && !BadAmount(row))
  {
    assert "Missing Type" != "Missing Payee Name" && "Missing Type" != "Missing or invalid Amount";
    assert "Missing Payee Name" != "Missing or invalid Amount";
  }

  /** A row naming a type outside the table gets exactly one warning, for
      that type, and no error on its account. */
  lemma UnknownTypeOnlyWarns(row: Record, rowNum: int)
    requires Truthy(row, "Type") && ExpenseTypeOf(row["Type"]).None?
    ensures ValidateBulkRow(row, rowNum).warnings == [UnknownType(row["Type"])]
  {
  }

  /** An unparsable amount on a known type is reported twice: as the error
      "Missing or invalid Amount" and as the range check's "Invalid amount"
      warning. */
  lemma InvalidAmountTwice(row: Record, rowNum: int)
    requires Truthy(row, "Type") && ExpenseTypeOf(row["Type"]).Some?
    requires Truthy(row, "Amount") && ParseFloat(row["Amount"]).None?
    ensures var r := ValidateBulkRow(row, rowNum);
            "Missing or invalid Amount" in r.errors && r.warnings == [RangeWarning(InvalidAmount)]
  {
  }

  // ---------------------------------------------------------------- formats

  predicate IsUpperAsciiLetter(c: char)
  {
    'A' <= c <= 'Z'
  }

  /** `/^[A-Z]{4}0[A-Z0-9]{6}$/.test(ifsc)` */
  predicate ValidIfsc(ifsc: string)
    ensures ValidIfsc(ifsc) ==> forall i :: 0 <= i < |ifsc| ==> IsUpperAsciiLetter(ifsc[i]) || IsDigit(ifsc[i])
  {
    |ifsc| == 11
    && (forall i :: 0 <= i < 4 ==> IsUpperAsciiLetter(ifsc[i]))
    && ifsc[4] == '0'
    && (forall i :: 5 <= i < 11 ==> IsUpperAsciiLetter(ifsc[i]) || IsDigit(ifsc[i]))
  }

  /** Every IFSC code of the seed directory has the valid format. */
  lemma SeedIfscValid()
    ensures forall i :: 0 <= i < |SeedVendors| ==> ValidIfsc(SeedVendors[i].ifsc)
  {
    forall i | 0 <= i < |SeedVendors|
      ensures ValidIfsc(SeedVendors[i].ifsc)
    {
      var s := SeedVendors[i].ifsc;
      assert |s| == 11;
      assert forall k :: 0 <= k < 4 ==> IsUpperAsciiLetter(s[k]);
      assert s[4] == '0';
      assert forall k :: 5 <= k < 11 ==> IsUpperAsciiLetter(s[k]) || IsDigit(s[k]);
    }
  }

  function TwoDigits(s: string, i: nat): nat
    requires i + 2 <= |s| && IsDigit(s[i]) && IsDigit(s[i + 1])
  {
    DigitValue(s[i]) * 10 + DigitValue(s[i + 1])
  }

  /** The shape `DD/MM/YYYY` with ASCII digits. */
  predicate DateShape(s: string)
  {
    |s| == 10 && s[2] == '/' && s[5] == '/'
    && IsDigit(s[0]) && IsDigit(s[1]) && IsDigit(s[3]) && IsDigit(s[4])
    && IsDigit(s[6]) && IsDigit(s[7]) && IsDigit(s[8]) && IsDigit(s[9])
  }

  function Year(s: string): nat
    requires DateShape(s)
  {
    TwoDigits(s, 6) * 100 + TwoDigits(s, 8)
  }

  /** `validateDate(dateString)`: the shape, a month 1-12, a day 1-31 and a
      year 2000-2100; the day is not checked against the month. */
  predicate ValidDate(s: string)
    ensures ValidDate(s) ==> |s| == 10 && Split(s, '/') == [s[..2], s[3..5], s[6..]]
  {
    if !DateShape(s) then false
    else
      DateSplit(s);
      1 <= TwoDigits(s, 3) <= 12
      && 1 <= TwoDigits(s, 0) <= 31
      && 2000 <= Year(s) <= 2100
  }

  /** A `DD/MM/YYYY` shape splits at `/` into day, month and year. */
  lemma DateSplit(s: string)
    requires DateShape(s)
    ensures Split(s, '/') == [s[..2], s[3..5], s[6..]]
  {
    assert s == s[..2] + "/" + s[3..5] + "/" + s[6..];
    assert forall i :: 0 <= i < |s| && i != 2 && i != 5 ==> s[i] != '/';
    assert '/' !in s[..2] && '/' !in s[3..5] && '/' !in s[6..];
    SplitThree(s[..2], s[3..5], s[6..]);
  }

  /** There is no per-month day check: 31 February passes. */
  lemma NoPerMonthCheck()
    ensures ValidDate("31/02/2024")
    ensures !ValidDate("01/13/2024") && !ValidDate("01/01/2101") && !ValidDate("1/1/2024")
  {
  }

  /** `parseDateToISO(ddmmyyyy)`; `today` is the date part of the current
      time, which the source reads from the clock. */
  function ParseDateToIso(ddmmyyyy: string, today: string): (r: string)
    ensures |Split(ddmmyyyy, '/')| != 3 ==> r == today
  {
    if ddmmyyyy == "" then today
    else
      var parts := Split(ddmmyyyy, '/');
      if |parts| != 3 then today
      else parts[2] + "-" + PadStart(parts[1], 2, '0') + "-" + PadStart(parts[0], 2, '0')
  }

  /** For three slash-separated parts the result is year, month and day
      rearranged, month and day padded to two digits. */
  lemma ThreePartIso(day: string, month: string, year: string, today: string)
    requires '/' !in day && '/' !in month && '/' !in year
    ensures ParseDateToIso(day + "/" + month + "/" + year, today)
            == year + "-" + PadStart(month, 2, '0') + "-" + PadStart(day, 2, '0')
  {
    SplitThree(day, month, year);
  }

  /** Three parts without a `/` joined by `/` split back into those parts. */
  lemma SplitThree(day: string, month: string, year: string)
    requires '/' !in day && '/' !in month && '/' !in year
    ensures Split(day + "/" + month + "/" + year, '/') == [day, month, year]
  {
    var a := day + ['/'];
    var b := month + ['/'];
    SplitNoSeparator(year, '/');
    SplitFirst(month, '/', year);
    SplitFirst(day, '/', b + year);
    assert day + "/" == a;
    Assoc3(a, month, ['/']);
    Assoc3(a, b, year);
    assert day + "/" + month + "/" + year == a + (b + year);
  }

  /** A valid `DD/MM/YYYY` date becomes `YYYY-MM-DD`. */
  lemma ValidDateToIso(s: string, today: string)
    requires ValidDate(s)
    ensures ParseDateToIso(s, today) == s[6..] + "-" + s[3..5] + "-" + s[..2]
  {
  }
}

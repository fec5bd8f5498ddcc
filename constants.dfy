/** The read-only configuration the business rules consult: the expense
    type table with its normal ranges and tax deduction, and the seed vendor
    directory (src/config/constants.js). */
module Constants {
  import opened Js

  /** One entry of `CONFIG.expenseTypes`. A `tds` of `null` is `None`; a
      type without `alertThreshold` has `None` there. */
  datatype ExpenseType = ExpenseType(
    dr: string, tds: Option<string>, rate: real,
    minAmount: real, maxAmount: real, category: string,
    alertThreshold: Option<real>)

  /** The keys of `CONFIG.expenseTypes`, in declaration order. */
  const TypeNames: seq<string> := [
    "Rent", "Interest", "Petrol", "Advance", "Loan", "Salary", "Wages", "Overtime",
    "Cutting Charges", "Stitching Charges", "Cartage", "Professional Fees", "Other"]

  /** `CONFIG.expenseTypes[name]`, `undefined` being `None`. */
  function ExpenseTypeOf(name: string): (c: Option<ExpenseType>)
    ensures c.Some? <==> name in TypeNames
  {
    if name == "Rent" then Some(ExpenseType("Factory Rent A/c @GST", Some("TDS 10%"), 0.1, 100000.0, 150000.0, "Fixed Expense", None))
    else if name == "Interest" then Some(ExpenseType("Loan Interest A/c", Some("Tds on Interest"), 0.1, 10000.0, 90000.0, "Financial", None))
    else if name == "Petrol" then Some(ExpenseType("Petrol A/c", None, 0.0, 1.0, 3000.0, "Operating Expense", None))
    else if name == "Advance" then Some(ExpenseType("Staff Advance A/c", None, 0.0, 500.0, 50000.0, "Staff Advance", None))
    else if name == "Loan" then Some(ExpenseType("Staff Loan A/c", None, 0.0, 1000.0, 100000.0, "Staff Loan", None))
    else if name == "Salary" then Some(ExpenseType("Salary A/c", None, 0.0, 1000.0, 100000.0, "Payroll", None))
    else if name == "Wages" then Some(ExpenseType("Wages A/c", None, 0.0, 500.0, 50000.0, "Payroll", None))
    else if name == "Overtime" then Some(ExpenseType("Overtime A/c", None, 0.0, 100.0, 10000.0, "Payroll", None))
    else if name == "Cutting Charges" then Some(ExpenseType("Cutting Charges A/c", Some("TDS 1%"), 0.01, 1000.0, 100000.0, "Production", None))
    else if name == "Stitching Charges" then Some(ExpenseType("Stitching Charges A/c", Some("TDS 1%"), 0.01, 1000.0, 100000.0, "Production", None))
    else if name == "Cartage" then Some(ExpenseType("Cartage A/c", Some("TDS 1%"), 0.01, 500.0, 50000.0, "Logistics", None))
    else if name == "Professional Fees" then Some(ExpenseType("Professional Fees A/c", Some("TDS 10%"), 0.1, 5000.0, 200000.0, "Professional Services", None))
    else if name == "Other" then Some(ExpenseType("Miscellaneous Expenses A/c", None, 0.0, 0.0, 5000.0, "Miscellaneous", Some(5000.0)))
    else None
  }

  /** Every type's normal range is non-empty. */
  lemma RangesOrdered(name: string)
    requires ExpenseTypeOf(name).Some?
    ensures ExpenseTypeOf(name).value.minAmount <= ExpenseTypeOf(name).value.maxAmount
  {
  }

  /** Only "Other" has an alert threshold, and it equals its maximum of 5000. */
  lemma OnlyOtherAlerts(name: string)
    requires ExpenseTypeOf(name).Some?
    ensures ExpenseTypeOf(name).value.alertThreshold.Some? <==> name == "Other"
    ensures name == "Other" ==> ExpenseTypeOf(name).value.alertThreshold == Some(ExpenseTypeOf(name).value.maxAmount) == Some(5000.0)
  {
  }

  /** The deduction rate is 0 exactly for the types without a TDS ledger. */
  lemma RateZeroIffNoTds(name: string)
    requires ExpenseTypeOf(name).Some?
    ensures ExpenseTypeOf(name).value.rate == 0.0 <==> ExpenseTypeOf(name).value.tds.None?
  {
  }

  /** One entry of `INITIAL_VENDORS`. */
  datatype SeedVendor = SeedVendor(id: string, name: string, accountNo: string, ifsc: string,
                                   bank: string, branch: string, status: string)

  const SeedVendors: seq<SeedVendor> := [
    SeedVendor("V001", "ALPINE", "1246261006174", "CNRB0002344", "Canara Bank", "karur", "Active"),
    SeedVendor("V002", "AMMAN TRADERS", "4037201000436", "CNRB0004037", "Canara Bank", "TIRUPPUR", "Active"),
    SeedVendor("V003", "AMMAN TRADERS KUMARAN", "9613576100", "KKBK0008785", "Kotak Mahindra Bank", "", "Active"),
    SeedVendor("V004", "VARSHA COTTON MILLS ARISTOCRATIC ENTERPRISES", "338073000001927", "SIBL0000338", "South Indian Bank", "", "Active"),
    SeedVendor("V005", "ASM TEXTILES", "1195102000007092", "IBKL0001195", "IDBI Bank", "", "Active"),
    SeedVendor("V006", "BABBALTEXO FAB", "918030091703751", "UTIB0003503", "Axis Bank", "", "Active"),
    SeedVendor("V007", "BHAIRAAV WATER SYSTEMS", "5949544882", "KKBK0000492", "Kotak Mahindra Bank", "", "Active"),
    SeedVendor("V008", "CHIRAG ENTERPRISE", "08472020000490", "HDFC0000847", "HDFC Bank", "", "Active"),
    SeedVendor("V009", "COSMIC COMPUTER", "0113102000100649", "IBKL0000113", "IDBI Bank", "", "Active"),
    SeedVendor("V010", "DIGIWHITE FABRICS LLP", "8000666444", "KKBK0002867", "Kotak Mahindra Bank", "", "Active"),
    SeedVendor("V011", "EAGLE PRINT CARE", "0393102000008297", "IBKL0000393", "IDBI Bank", "", "Active"),
    SeedVendor("V012", "FRIENDS PACK", "50200014924572", "HDFC0002408", "HDFC Bank", "", "Active"),
    SeedVendor("V013", "GINNI SPECTRA", "675405500011", "ICIC0006754", "ICICI Bank", "", "Active")
  ]

  /** A seed entry as the plain object the rest of the application handles. */
  function SeedRecord(v: SeedVendor): (r: Record)
    ensures r.Keys == {"id", "name", "accountNo", "ifsc", "bank", "branch", "status"}
    ensures r["id"] == v.id && r["name"] == v.name && r["ifsc"] == v.ifsc
  {
    map["id" := v.id, "name" := v.name, "accountNo" := v.accountNo, "ifsc" := v.ifsc,
        "bank" := v.bank, "branch" := v.branch, "status" := v.status]
  }

  /** `INITIAL_VENDORS` */
  function InitialVendors(): (vs: seq<Record>)
    ensures |vs| == |SeedVendors| && forall i :: 0 <= i < |vs| ==> vs[i] == SeedRecord(SeedVendors[i])
  {
    seq(|SeedVendors|, i requires 0 <= i < |SeedVendors| => SeedRecord(SeedVendors[i]))
  }

  /** The id `V0` followed by the two digits of `n`. */
  function SeedId(n: nat): string
    requires n < 100
  {
    "V0" + [DigitChar(n / 10), DigitChar(n % 10)]
  }

  /** The seed ids are "V001" to "V013", in order. */
  lemma SeedIds()
    ensures |SeedVendors| == 13
    ensures forall i :: 0 <= i < 13 ==> SeedVendors[i].id == SeedId(i + 1)
  {
  }

  /** Different numbers give different ids. */
  lemma SeedIdInjective(m: nat, n: nat)
    requires m < n < 100
    ensures SeedId(m) != SeedId(n)
  {
    var a, b := SeedId(m), SeedId(n);
    if m / 10 == n / 10 {
      assert m % 10 != n % 10;
      assert a[3] != b[3];
    } else {
      assert a[2] != b[2];
    }
  }

  /** Entries numbered one after the other carry pairwise distinct ids. */
  lemma NumberedDistinct(vs: seq<SeedVendor>)
    requires |vs| < 99
    requires forall i :: 0 <= i < |vs| ==> vs[i].id == SeedId(i + 1)
    ensures forall i, j :: 0 <= i < j < |vs| ==> vs[i].id != vs[j].id
  {
    forall i, j | 0 <= i < j < |vs|
      ensures vs[i].id != vs[j].id
    {
      assert vs[i].id == SeedId(i + 1) && vs[j].id == SeedId(j + 1);
      SeedIdInjective(i + 1, j + 1);
    }
  }

  /** The seed ids are pairwise distinct. */
  lemma SeedIdsDistinct()
    ensures forall i, j :: 0 <= i < j < |SeedVendors| ==> SeedVendors[i].id != SeedVendors[j].id
  {
    SeedIds();
    NumberedDistinct(SeedVendors);
  }
}

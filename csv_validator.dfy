/** Header and row checks for the three bulk-import templates, the
    similarity score behind the "did you mean" hints, and the structure of
    the error report shown to the user (src/utils/csvValidator.js). */
module CsvValidator {
  import opened Js
  import FuzzyMatching

  // ------------------------------------------------------------- templates

  /** A template: its required and optional columns, and one example value
      per column, in the key order of the `example` object. */
  datatype Template = Template(required: seq<string>, optional: seq<string>, example: seq<(string, string)>)

  const VendorTemplate: Template := Template(
    ["Vendor Name", "Bank Name", "IFSC Code", "Account Number"],
    ["Branch", "Status"],
    [("Vendor Name", "ABC Suppliers Pvt Ltd"), ("Bank Name", "HDFC Bank"),
     ("IFSC Code", "HDFC0001234"), ("Account Number", "12345678901"),
     ("Branch", "Mumbai Branch"), ("Status", "Active")])

  const EmployeeTemplate: Template := Template(
    ["Emp ID", "Name", "Bank Name", "IFSC Code", "Account Number"],
    ["Department", "Designation", "Branch", "Account Type"],
    [("Emp ID", "E0001"), ("Name", "John Doe"), ("Department", "Sales"),
     ("Designation", "Manager"), ("Bank Name", "HDFC Bank"), ("IFSC Code", "HDFC0001234"),
     ("Account Number", "12345678901"), ("Branch", "Mumbai Branch"), ("Account Type", "Saving")])

  const ExpenseTemplate: Template := Template(
    ["Date", "Type", "Payee/Vendor", "Amount"],
    ["Receipt No", "Narration", "Reason", "Payee Type"],
    [("Date", "15/11/2024"), ("Type", "Petrol"), ("Payee/Vendor", "Shell Petrol Pump"),
     ("Amount", "2500"), ("Receipt No", "INV-12345"), ("Narration", "Monthly fuel expense"),
     ("Reason", "Official vehicle"), ("Payee Type", "vendor")])

  /** `CSV_TEMPLATES[templateType]` */
  function CsvTemplate(templateType: string): (t: Option<Template>)
    ensures t.Some? <==> templateType in {"vendor", "employee", "expense"}
  {
    if templateType == "vendor" then Some(VendorTemplate)
    else if templateType == "employee" then Some(EmployeeTemplate)
    else if templateType == "expense" then Some(ExpenseTemplate)
    else None
  }

  /** `template.example[col]`, `undefined` being `None`. */
  function ExampleOf(t: Template, col: string): (v: Option<string>)
    ensures v.Some? <==> exists i :: 0 <= i < |t.example| && t.example[i].0 == col
    decreases |t.example|
  {
    if |t.example| == 0 then None
    else if t.example[0].0 == col then Some(t.example[0].1)
    else ExampleOf(Template(t.required, t.optional, t.example[1..]), col)
  }

  function Keys(ex: seq<(string, string)>): (ks: seq<string>)
    ensures |ks| == |ex| && forall i :: 0 <= i < |ex| ==> ks[i] == ex[i].0
  {
    seq(|ex|, i requires 0 <= i < |ex| => ex[i].0)
  }

  function Values(ex: seq<(string, string)>): (vs: seq<string>)
    ensures |vs| == |ex| && forall i :: 0 <= i < |ex| ==> vs[i] == ex[i].1
  {
    seq(|ex|, i requires 0 <= i < |ex| => ex[i].1)
  }

  /** Every column of a template has an example, in the key order of the
      example object, and no column is both required and optional. */
  predicate WellFormed(t: Template)
  {
    Covered(t) && Disjoint(t)
  }

  predicate Covered(t: Template)
  {
    (forall c :: c in t.required ==> c in Keys(t.example))
    && (forall c :: c in t.optional ==> c in Keys(t.example))
  }

  predicate Disjoint(t: Template)
  {
    forall c :: c in t.required ==> c !in t.optional
  }

  lemma VendorWellFormed()
    ensures WellFormed(VendorTemplate)
  {
    var ks := Keys(VendorTemplate.example);
    assert ks == ["Vendor Name", "Bank Name", "IFSC Code", "Account Number", "Branch", "Status"];
    assert Covered(VendorTemplate);
    VendorDisjoint();
  }

  lemma VendorDisjoint()
    ensures Disjoint(VendorTemplate)
  {
  }

  lemma EmployeeWellFormed()
    ensures WellFormed(EmployeeTemplate)
  {
    EmployeeCovered();
    EmployeeDisjoint();
  }

  lemma EmployeeCovered()
    ensures Covered(EmployeeTemplate)
  {
    var ks := Keys(EmployeeTemplate.example);
    assert ks == ["Emp ID", "Name", "Department", "Designation", "Bank Name", "IFSC Code",
                  "Account Number", "Branch", "Account Type"];
  }

  lemma EmployeeDisjoint()
    ensures Disjoint(EmployeeTemplate)
  {
  }

  lemma ExpenseWellFormed()
    ensures WellFormed(ExpenseTemplate)
  {
    ExpenseCovered();
    ExpenseDisjoint();
  }

  lemma ExpenseCovered()
    ensures Covered(ExpenseTemplate)
  {
    var ks := Keys(ExpenseTemplate.example);
    assert ks == ["Date", "Type", "Payee/Vendor", "Amount", "Receipt No", "Narration", "Reason", "Payee Type"];
  }

  lemma ExpenseDisjoint()
    ensures Disjoint(ExpenseTemplate)
  {
  }

  /** All three templates are well formed. */
  lemma TemplatesWellFormed(templateType: string)
    requires CsvTemplate(templateType).Some?
    ensures WellFormed(CsvTemplate(templateType).value)
  {
    VendorWellFormed();
    EmployeeWellFormed();
    ExpenseWellFormed();
  }

  // ------------------------------------------------------------ similarity

  /** `calculateSimilarity(str1, str2)`: the edit distance between the longer
      and the shorter string, as the share of the longer length that
      survives; 1.0 for two empty strings. */
  function Similarity(str1: string, str2: string): real
  {
    var longer := if |str1| > |str2| then str1 else str2;
    var shorter := if |str1| > |str2| then str2 else str1;
    if |longer| == 0 then 1.0
    else Share(|longer|, FuzzyMatching.Lev(longer, shorter))
  }

  /** The part of `len` left after `dist` edits, as a fraction of `len`. */
  function Share(len: nat, dist: nat): real
    requires len > 0
  {
    (len - dist) as real / len as real
  }

  method CalculateSimilarity(str1: string, str2: string) returns (r: real)
    ensures r == Similarity(str1, str2)
  {
    var longer := if |str1| > |str2| then str1 else str2;
    var shorter := if |str1| > |str2| then str2 else str1;
    if |longer| == 0 {
      return 1.0;
    }
    var editDistance := FuzzyMatching.LevenshteinDistance(longer, shorter);
    r := (|longer| - editDistance) as real / |longer| as real;
  }

  lemma RatioComplement(m: nat, d: nat)
    requires m > 0
    ensures Share(m, d) == 1.0 - d as real / m as real
  {
    var mr, dr := m as real, d as real;
    assert (m - d) as real == mr - dr;
    var q, x := (mr - dr) / mr, dr / mr;
    assert q * mr == mr - dr;
    assert x * mr == dr;
    assert (q + x - 1.0) * mr == q * mr + x * mr - mr;
    assert (q + x - 1.0) * mr == 0.0;
    ZeroFactor(q + x - 1.0, mr);
  }

  lemma ZeroFactor(a: real, b: real)
    requires b > 0.0 && a * b == 0.0
    ensures a == 0.0
  {
  }

  /** The similarity is `1 - distance / max(lengths)` unless both strings
      are empty, and 1.0 when they are. */
  lemma SimilarityFormula(str1: string, str2: string)
    ensures |str1| == 0 && |str2| == 0 ==> Similarity(str1, str2) == 1.0
    ensures |str1| + |str2| > 0 ==>
      Similarity(str1, str2)
      == 1.0 - FuzzyMatching.Lev(str1, str2) as real / FuzzyMatching.Max(|str1|, |str2|) as real
  {
    if |str1| + |str2| > 0 {
      var m := FuzzyMatching.Max(|str1|, |str2|);
      SimilarityParts(str1, str2);
      RatioComplement(m, FuzzyMatching.Lev(str1, str2));
    }
  }

  /** The longer length and the distance, whichever string is longer. */
  lemma SimilarityParts(str1: string, str2: string)
    requires |str1| + |str2| > 0
    ensures var m := FuzzyMatching.Max(|str1|, |str2|);
            m > 0 && Similarity(str1, str2) == Share(m, FuzzyMatching.Lev(str1, str2))
  {
    FuzzyMatching.LevSymmetric(str1, str2);
  }

  /** The similarity does not depend on the argument order. */
  lemma SimilaritySymmetric(str1: string, str2: string)
    ensures Similarity(str1, str2) == Similarity(str2, str1)
  {
    FuzzyMatching.LevSymmetric(str1, str2);
  }

  lemma RatioUnit(n: nat, m: nat)
    requires n <= m && m > 0
    ensures 0.0 <= n as real / m as real <= 1.0
    ensures n as real / m as real == 1.0 <==> n == m
  {
    var x := n as real / m as real;
    assert x * m as real == n as real;
  }

  /** The similarity lies in [0, 1] and is 1.0 exactly for equal strings. */
  lemma SimilarityRange(str1: string, str2: string)
    ensures 0.0 <= Similarity(str1, str2) <= 1.0
    ensures Similarity(str1, str2) == 1.0 <==> str1 == str2
  {
    var longer := if |str1| > |str2| then str1 else str2;
    var shorter := if |str1| > |str2| then str2 else str1;
    if |longer| > 0 {
      var d := FuzzyMatching.Lev(longer, shorter);
      FuzzyMatching.LevAtMostLonger(longer, shorter);
      FuzzyMatching.LevZeroIff(longer, shorter);
      RatioUnit(|longer| - d, |longer|);
      assert Similarity(str1, str2) == (|longer| - d) as real / |longer| as real;
      assert str1 == str2 <==> longer == shorter;
    }
  }

  /** On two different strings this score and the edit-distance rule of
      `findBestMatch` coincide. */
  lemma SimilarityAgreesWithSearch(a: string, b: string)
    requires a != b
    ensures Similarity(a, b) == FuzzyMatching.Similarity(a, b)
  {
    SimilarityFormula(a, b);
  }

  /** `Math.round(similarity * 100)`: halves round up. */
  function Percent(similarity: real): (p: int)
    ensures p as real <= similarity * 100.0 + 0.5 < p as real + 1.0
  {
    (similarity * 100.0 + 0.5).Floor
  }

  // -------------------------------------------------------- header checks

  /** `headers.map(h => h.trim())` */
  function TrimAll(headers: seq<string>): (found: seq<string>)
    ensures |found| == |headers| && forall i :: 0 <= i < |headers| ==> found[i] == Trim(headers[i])
  {
    seq(|headers|, i requires 0 <= i < |headers| => Trim(headers[i]))
  }

  /** `cols.some(c => c.toLowerCase() === name.toLowerCase())` */
  predicate MatchesSome(cols: seq<string>, name: string)
  {
    exists i :: 0 <= i < |cols| && Lower(cols[i]) == Lower(name)
  }

  /** `required.filter(col => !found.some(...))`: the required columns no
      header names, case-insensitively. */
  function Missing(required: seq<string>, found: seq<string>): seq<string>
    decreases |required|
  {
    if |required| == 0 then []
    else
      var col := required[|required| - 1];
      Missing(required[..|required| - 1], found) + (if MatchesSome(found, col) then [] else [col])
  }

  /** `found.filter(h => !allExpected.some(...))`: the headers that name no
      column of the template, case-insensitively. */
  function Extra(found: seq<string>, allExpected: seq<string>): seq<string>
    decreases |found|
  {
    if |found| == 0 then []
    else
      var h := found[|found| - 1];
      Extra(found[..|found| - 1], allExpected) + (if MatchesSome(allExpected, h) then [] else [h])
  }

  /** A column is missing exactly when it is required and no header matches
      it case-insensitively; the missing columns keep template order. */
  lemma {:induction false} MissingIff(required: seq<string>, found: seq<string>, col: string)
    ensures col in Missing(required, found) <==> col in required && !MatchesSome(found, col)
    ensures IsSubsequence(Missing(required, found), required)
    decreases |required|
  {
    if |required| > 0 {
      var init := required[..|required| - 1];
      var last := required[|required| - 1];
      MissingIff(init, found, col);
      InitLast(required);
      if MatchesSome(found, last) {
        assert Missing(required, found) == Missing(init, found);
        SubsequenceSkip(Missing(init, found), init, last);
      } else {
        SubsequenceKeep(Missing(init, found), init, last);
      }
    }
  }

  /** A header is extra exactly when no template column matches it; the
      extra headers keep file order. */
  lemma {:induction false} ExtraIff(found: seq<string>, allExpected: seq<string>, h: string)
    ensures h in Extra(found, allExpected) <==> h in found && !MatchesSome(allExpected, h)
    ensures multiset(Extra(found, allExpected))[h] == if MatchesSome(allExpected, h) then 0 else multiset(found)[h]
    ensures IsSubsequence(Extra(found, allExpected), found)
    decreases |found|
  {
    if |found| > 0 {
      var init := found[..|found| - 1];
      var last := found[|found| - 1];
      ExtraIff(init, allExpected, h);
      InitLast(found);
      assert multiset(found) == multiset(init) + multiset{last};
      if MatchesSome(allExpected, last) {
        assert Extra(found, allExpected) == Extra(init, allExpected);
        SubsequenceSkip(Extra(init, allExpected), init, last);
      } else {
        assert Extra(found, allExpected) == Extra(init, allExpected) + [last];
        SubsequenceKeep(Extra(init, allExpected), init, last);
      }
    }
  }

  lemma {:induction false} MissingEmptyIff(required: seq<string>, found: seq<string>)
    ensures Missing(required, found) == [] <==> forall col :: col in required ==> MatchesSome(found, col)
  {
    if Missing(required, found) != [] {
      var col := Missing(required, found)[0];
      MissingIff(required, found, col);
    }
    forall col | col in required && !MatchesSome(found, col)
      ensures Missing(required, found) != []
    {
      MissingIff(required, found, col);
    }
  }

  // ------------------------------------------------------ misspelling hints

  datatype Suggestion = Suggestion(expected: string, found: string, similarity: int)

  /** A suggestion for `missingCol` against `foundCol`, if their lower-case
      similarity exceeds 0.6. */
  function Hint(missingCol: string, foundCol: string): seq<Suggestion>
  {
    var similarity := Similarity(Lower(missingCol), Lower(foundCol));
    if similarity > 0.6 then [Suggestion(missingCol, foundCol, Percent(similarity))] else []
  }

  /** The inner `found.forEach` for one missing column. */
  function HintsFor(missingCol: string, found: seq<string>): seq<Suggestion>
    decreases |found|
  {
    if |found| == 0 then []
    else HintsFor(missingCol, found[..|found| - 1]) + Hint(missingCol, found[|found| - 1])
  }

  /** The nested `forEach` over missing columns and found headers. */
  function Misspellings(missing: seq<string>, found: seq<string>): seq<Suggestion>
    decreases |missing|
  {
    if |missing| == 0 then []
    else Misspellings(missing[..|missing| - 1], found) + HintsFor(missing[|missing| - 1], found)
  }

  /** The `possibleMisspellings` loops of `validateCSVStructure`. */
  method FindMisspellings(missing: seq<string>, found: seq<string>) returns (possibleMisspellings: seq<Suggestion>)
    ensures possibleMisspellings == Misspellings(missing, found)
  {
    possibleMisspellings := [];
    for i := 0 to |missing|
      invariant possibleMisspellings == Misspellings(missing[..i], found)
    {
      var missingCol := missing[i];
      ghost var before := possibleMisspellings;
      for j := 0 to |found|
        invariant possibleMisspellings == before + HintsFor(missingCol, found[..j])
      {
        var foundCol := found[j];
        var similarity := CalculateSimilarity(Lower(missingCol), Lower(foundCol));
        if similarity > 0.6 {
          possibleMisspellings := possibleMisspellings + [Suggestion(missingCol, foundCol, Percent(similarity))];
        }
        assert found[..j + 1][..j] == found[..j];
      }
      assert found[..|found|] == found;
      assert missing[..i + 1][..i] == missing[..i];
    }
    assert missing[..|missing|] == missing;
  }

  /** A hint is produced for one column against `found` exactly when some
      header is more than 0.6 similar to it, and carries that rounded score. */
  lemma {:induction false} HintsForIff(m: string, found: seq<string>, s: Suggestion)
    ensures s in HintsFor(m, found) <==>
      s.expected == m && s.found in found && Similarity(Lower(m), Lower(s.found)) > 0.6
      && s.similarity == Percent(Similarity(Lower(m), Lower(s.found)))
    decreases |found|
  {
    if |found| > 0 {
      var init := found[..|found| - 1];
      HintsForIff(m, init, s);
      InitLast(found);
    }
  }

  /** A suggestion is emitted for exactly those (missing, found) pairs whose
      lower-case similarity exceeds 0.6. */
  lemma {:induction false} MisspellingsIff(missing: seq<string>, found: seq<string>, s: Suggestion)
    ensures s in Misspellings(missing, found) <==>
      s.expected in missing && s.found in found && Similarity(Lower(s.expected), Lower(s.found)) > 0.6
      && s.similarity == Percent(Similarity(Lower(s.expected), Lower(s.found)))
    decreases |missing|
  {
    if |missing| > 0 {
      var init := missing[..|missing| - 1];
      var last := missing[|missing| - 1];
      MisspellingsIff(init, found, s);
      HintsForIff(last, found, s);
      InitLast(missing);
    }
  }

  // --------------------------------------------------- structure validation

  datatype CsvError =
    | UnknownTemplate(templateType: string)
    | MissingColumns(missing: seq<string>, found: seq<string>, expected: seq<string>)

  datatype CsvWarning =
    | ExtraColumns(extra: seq<string>)
    | PossibleMisspelling(suggestions: seq<Suggestion>)

  /** The object `validateCSVStructure` returns. For an unknown template the
      source returns only `valid` and `errors`; `warnings` and `found` are
      empty and `template` is `None` here. */
  datatype Validation = Validation(valid: bool, errors: seq<CsvError>, warnings: seq<CsvWarning>,
                                   template: Option<Template>, found: seq<string>)

  /** The `message` of an error; a bare string error has none. */
  function ErrorMessage(e: CsvError): Option<string>
  {
    match e
    case UnknownTemplate(_) => None
    case MissingColumns(missing, _, _) => Some("Missing " + NatToString(|missing|) + " required column(s)")
  }

  /** The text of an error as shown in the `errors` array. */
  function ErrorText(e: CsvError): string
  {
    match e
    case UnknownTemplate(t) => "Unknown template type: " + t
    case MissingColumns(_, _, _) => ErrorMessage(e).value
  }

  function WarningMessage(w: CsvWarning): string
  {
    match w
    case ExtraColumns(extra) => "Found " + NatToString(|extra|) + " unrecognized column(s)"
    case PossibleMisspelling(_) => "Possible column name misspellings detected"
  }

  function WarningNote(w: CsvWarning): Option<string>
  {
    if w.ExtraColumns? then Some("These columns will be ignored") else None
  }

  /** What `validateCSVStructure(headers, templateType)` returns. */
  function Structure(headers: seq<string>, templateType: string): Validation
  {
    match CsvTemplate(templateType)
    case None => Validation(false, [UnknownTemplate(templateType)], [], None, [])
    case Some(t) => StructureFor(t, headers)
  }

  /** The validation of `headers` against a known template. */
  function StructureFor(t: Template, headers: seq<string>): Validation
  {
      var found := TrimAll(headers);
      var missing := Missing(t.required, found);
      var allExpected := t.required + t.optional;
      var extra := Extra(found, allExpected);
      var suggestions := Misspellings(missing, found);
      var errors := if |missing| > 0 then [MissingColumns(missing, found, allExpected)] else [];
      var warnings := (if |extra| > 0 then [ExtraColumns(extra)] else [])
                      + (if |suggestions| > 0 then [PossibleMisspelling(suggestions)] else []);
      Validation(|errors| == 0, errors, warnings, Some(t), found)
  }

  /** `validateCSVStructure`: pushes the missing-columns error and the
      extra-column and misspelling warnings in that order. */
  method ValidateCsvStructure(headers: seq<string>, templateType: string) returns (v: Validation)
    ensures v == Structure(headers, templateType)
  {
    var template := CsvTemplate(templateType);
    if template.None? {
      return Validation(false, [UnknownTemplate(templateType)], [], None, []);
    }
    var t := template.value;
    v := ValidateAgainst(t, headers);
  }

  /** The body of `validateCSVStructure` once the template is found. */
  method ValidateAgainst(t: Template, headers: seq<string>) returns (v: Validation)
    ensures v == StructureFor(t, headers)
  {
    var errors: seq<CsvError> := [];
    var warnings: seq<CsvWarning> := [];
    var found := TrimAll(headers);
    var missing := Missing(t.required, found);
    if |missing| > 0 {
      errors := errors + [MissingColumns(missing, found, t.required + t.optional)];
    }
    var allExpected := t.required + t.optional;
    assert errors == if |missing| > 0 then [MissingColumns(missing, found, allExpected)] else [];
    var extra := Extra(found, allExpected);
    if |extra| > 0 {
      warnings := warnings + [ExtraColumns(extra)];
    }
    ghost var extraWarnings := warnings;
    assert extraWarnings == if |extra| > 0 then [ExtraColumns(extra)] else [];
    var possibleMisspellings := FindMisspellings(missing, found);
    if |possibleMisspellings| > 0 {
      warnings := warnings + [PossibleMisspelling(possibleMisspellings)];
    }
    assert warnings == extraWarnings + (if |possibleMisspellings| > 0 then [PossibleMisspelling(possibleMisspellings)] else []);
    v := Validation(|errors| == 0, errors, warnings, Some(t), found);
  }

  /** An unknown template type gives `valid = false` and the single error
      "Unknown template type: ...". */
  lemma UnknownTemplateFails(headers: seq<string>, templateType: string)
    requires templateType !in {"vendor", "employee", "expense"}
    ensures var v := Structure(headers, templateType);
            !v.valid && |v.errors| == 1 && ErrorText(v.errors[0]) == "Unknown template type: " + templateType
  {
  }

  /** Against a template, the file is valid exactly when every required
      column is named by some trimmed header, case-insensitively. */
  lemma ValidIff(t: Template, headers: seq<string>)
    ensures StructureFor(t, headers).valid
            <==> forall col :: col in t.required ==> MatchesSome(TrimAll(headers), col)
  {
    MissingEmptyIff(t.required, TrimAll(headers));
  }

  /** The missing-columns error lists exactly the required columns no
      trimmed header names, with their count in the message, and offers
      every template column as expected. */
  lemma MissingErrorContents(t: Template, headers: seq<string>, col: string)
    requires |StructureFor(t, headers).errors| > 0
    ensures var e := StructureFor(t, headers).errors[0];
            e.MissingColumns?
            && (col in e.missing <==> col in t.required && !MatchesSome(TrimAll(headers), col))
            && ErrorMessage(e) == Some("Missing " + NatToString(|e.missing|) + " required column(s)")
            && e.expected == t.required + t.optional
  {
    MissingIff(t.required, TrimAll(headers), col);
  }

  /** A header matching no required column never changes the found-status
      of a required column. */
  lemma MatchesSomeAppend(found: seq<string>, x: string, col: string)
    requires Lower(x) != Lower(col)
    ensures MatchesSome(found + [x], col) == MatchesSome(found, col)
  {
    var found' := found + [x];
    if MatchesSome(found, col) {
      var i :| 0 <= i < |found| && Lower(found[i]) == Lower(col);
      assert found'[i] == found[i];
    }
  }

  /** An unexpected header only adds a warning: appending a header that
      names no template column leaves `valid` as it was. */
  lemma ExtraHeaderKeepsValid(t: Template, headers: seq<string>, h: string)
    requires !MatchesSome(t.required + t.optional, Trim(h))
    ensures StructureFor(t, headers + [h]).valid == StructureFor(t, headers).valid
  {
    var found := TrimAll(headers);
    assert TrimAll(headers + [h]) == found + [Trim(h)];
    forall col | col in t.required
      ensures MatchesSome(found + [Trim(h)], col) == MatchesSome(found, col)
    {
      var j :| 0 <= j < |t.required| && t.required[j] == col;
      assert (t.required + t.optional)[j] == col;
      MatchesSomeAppend(found, Trim(h), col);
    }
    ValidIff(t, headers);
    ValidIff(t, headers + [h]);
  }

  /** The warnings: an extra-columns warning listing exactly the trimmed
      headers no template column matches, then a misspelling warning holding
      exactly the similar (missing, found) pairs. */
  lemma WarningContents(t: Template, headers: seq<string>, h: string, s: Suggestion)
    ensures var v := StructureFor(t, headers);
            var found := TrimAll(headers);
            var missing := Missing(t.required, found);
            (h in Extra(found, t.required + t.optional) <==> h in found && !MatchesSome(t.required + t.optional, h))
            && (s in Misspellings(missing, found) <==>
                 s.expected in missing && s.found in found && Similarity(Lower(s.expected), Lower(s.found)) > 0.6
                 && s.similarity == Percent(Similarity(Lower(s.expected), Lower(s.found))))
            && (forall w :: w in v.warnings ==>
                 w == ExtraColumns(Extra(found, t.required + t.optional))
                 || w == PossibleMisspelling(Misspellings(missing, found)))
  {
    var found := TrimAll(headers);
    var missing := Missing(t.required, found);
    var extra := Extra(found, t.required + t.optional);
    var suggestions := Misspellings(missing, found);
    ExtraIff(found, t.required + t.optional, h);
    MisspellingsIff(missing, found, s);
    assert StructureFor(t, headers).warnings
           == (if |extra| > 0 then [ExtraColumns(extra)] else [])
              + (if |suggestions| > 0 then [PossibleMisspelling(suggestions)] else []);
    TwoWarnings(extra, suggestions);
  }

  /** The warning list holds at most the two warnings it is built from. */
  lemma TwoWarnings(extra: seq<string>, suggestions: seq<Suggestion>)
    ensures var ws := (if |extra| > 0 then [ExtraColumns(extra)] else [])
                      + (if |suggestions| > 0 then [PossibleMisspelling(suggestions)] else []);
            forall w :: w in ws ==> w == ExtraColumns(extra) || w == PossibleMisspelling(suggestions)
  {
  }

  // ---------------------------------------------------------- row checks

  datatype RowError = RowError(row: int, column: string, message: string, example: Option<string>)

  /** `!value || value.trim() === ''` */
  predicate Blank(row: Record, col: string)
  {
    !Truthy(row, col) || Trim(row[col]) == ""
  }

  /** The errors for the columns `cols` of row number `rowIndex`. */
  function RowErrors(t: Template, cols: seq<string>, row: Record, rowIndex: int): seq<RowError>
    decreases |cols|
  {
    if |cols| == 0 then []
    else
      var col := cols[|cols| - 1];
      RowErrors(t, cols[..|cols| - 1], row, rowIndex)
      + (if Blank(row, col) then [RowError(rowIndex + 2, col, "Missing required field: " + col, ExampleOf(t, col))] else [])
  }

  /** `validateRowData(row, rowIndex, templateType)`. The source dereferences
      the template unconditionally, so the type must be known. */
  method ValidateRowData(row: Record, rowIndex: int, templateType: string) returns (errors: seq<RowError>)
    requires CsvTemplate(templateType).Some?
    ensures errors == RowErrors(CsvTemplate(templateType).value, CsvTemplate(templateType).value.required, row, rowIndex)
  {
    errors := CheckRequired(CsvTemplate(templateType).value, row, rowIndex);
  }

  /** The loop of `validateRowData` over the template's required columns. */
  method CheckRequired(template: Template, row: Record, rowIndex: int) returns (errors: seq<RowError>)
    ensures errors == RowErrors(template, template.required, row, rowIndex)
  {
    errors := [];
    for k := 0 to |template.required|
      invariant errors == RowErrors(template, template.required[..k], row, rowIndex)
    {
      var col := template.required[k];
      var blank := !(col in row && row[col] != "") || Trim(row[col]) == "";
      if blank {
        errors := errors + [RowError(rowIndex + 2, col, "Missing required field: " + col, ExampleOf(template, col))];
      }
      assert template.required[..k + 1][..k] == template.required[..k];
    }
    assert template.required[..|template.required|] == template.required;
  }

  function Columns(errors: seq<RowError>): (cs: seq<string>)
    ensures |cs| == |errors| && forall i :: 0 <= i < |errors| ==> cs[i] == errors[i].column
  {
    seq(|errors|, i requires 0 <= i < |errors| => errors[i].column)
  }

  lemma RowErrorsSnoc(t: Template, cols: seq<string>, row: Record, rowIndex: int)
    requires |cols| > 0
    ensures var last := cols[|cols| - 1];
            Columns(RowErrors(t, cols, row, rowIndex))
            == Columns(RowErrors(t, cols[..|cols| - 1], row, rowIndex)) + (if Blank(row, last) then [last] else [])
  {
    var last := cols[|cols| - 1];
    var before := RowErrors(t, cols[..|cols| - 1], row, rowIndex);
    if Blank(row, last) {
      var e := RowError(rowIndex + 2, last, "Missing required field: " + last, ExampleOf(t, last));
      assert Columns(before + [e]) == Columns(before) + [last];
    }
  }

  /** A column has an error exactly when it is one of `cols` and its value
      is absent or blank after trimming; the errors follow the order of
      `cols`. */
  lemma {:induction false} RowErrorsIff(t: Template, cols: seq<string>, row: Record, rowIndex: int, col: string)
    ensures col in Columns(RowErrors(t, cols, row, rowIndex)) <==> col in cols && Blank(row, col)
    ensures IsSubsequence(Columns(RowErrors(t, cols, row, rowIndex)), cols)
    decreases |cols|
  {
    if |cols| > 0 {
      var init := cols[..|cols| - 1];
      var last := cols[|cols| - 1];
      RowErrorsIff(t, init, row, rowIndex, col);
      RowErrorsSnoc(t, cols, row, rowIndex);
      InitLast(cols);
      var before := Columns(RowErrors(t, init, row, rowIndex));
      if Blank(row, last) {
        SubsequenceKeep(before, init, last);
      } else {
        assert Columns(RowErrors(t, cols, row, rowIndex)) == before;
        SubsequenceSkip(before, init, last);
      }
    }
  }

  /** Every row error is tagged with row `rowIndex + 2` (one for the header
      line, one for counting from 1), names its column in the message and
      carries the template's example for it. */
  lemma {:induction false} RowErrorsTagged(t: Template, cols: seq<string>, row: Record, rowIndex: int)
    ensures forall e :: e in RowErrors(t, cols, row, rowIndex) ==>
      e.row == rowIndex + 2 && e.message == "Missing required field: " + e.column
      && e.example == ExampleOf(t, e.column)
    decreases |cols|
  {
    if |cols| > 0 {
      RowErrorsTagged(t, cols[..|cols| - 1], row, rowIndex);
    }
  }

  /** Optional columns never produce a row error. */
  lemma OptionalNeverErrors(row: Record, rowIndex: int, templateType: string, col: string)
    requires CsvTemplate(templateType).Some?
    requires col in CsvTemplate(templateType).value.optional
    ensures var t := CsvTemplate(templateType).value;
            col !in Columns(RowErrors(t, t.required, row, rowIndex))
  {
    var t := CsvTemplate(templateType).value;
    TemplatesWellFormed(templateType);
    RowErrorsIff(t, t.required, row, rowIndex, col);
  }

  // ------------------------------------------------------------- the report

  datatype Item = Item(text: string, required: Option<bool>, example: Option<string>)

  datatype Section =
    | ItemSection(title: string, kind: string, items: seq<Item>)
    | FormatSection(title: string, kind: string, csvExample: string)

  /** The report; `summary` is `None` when it is `undefined`. */
  datatype Report = Report(title: string, summary: Option<string>, sections: seq<Section>)

  /** `s.charAt(0).toUpperCase() + s.slice(1)` */
  function Capitalize(s: string): (r: string)
    ensures |r| == |s| && (|s| > 0 ==> r[0] == UpperChar(s[0]))
    ensures forall i :: 1 <= i < |s| ==> r[i] == s[i]
  {
    if |s| == 0 then "" else [UpperChar(s[0])] + s[1..]
  }

  function TextItems(cols: seq<string>): (items: seq<Item>)
    ensures |items| == |cols| && forall i :: 0 <= i < |cols| ==> items[i] == Item(cols[i], None, None)
  {
    seq(|cols|, i requires 0 <= i < |cols| => Item(cols[i], None, None))
  }

  function MissingItems(t: Template, cols: seq<string>): (items: seq<Item>)
    ensures |items| == |cols| && forall i :: 0 <= i < |cols| ==> items[i] == Item(cols[i], None, ExampleOf(t, cols[i]))
  {
    seq(|cols|, i requires 0 <= i < |cols| => Item(cols[i], None, ExampleOf(t, cols[i])))
  }

  function ExpectedItems(t: Template, cols: seq<string>): (items: seq<Item>)
    ensures |items| == |cols|
    ensures forall i :: 0 <= i < |cols| ==> items[i] == Item(cols[i], Some(cols[i] in t.required), ExampleOf(t, cols[i]))
  {
    seq(|cols|, i requires 0 <= i < |cols| => Item(cols[i], Some(cols[i] in t.required), ExampleOf(t, cols[i])))
  }

  /** `"found" might be "expected" (N% match)` */
  function SuggestionText(s: Suggestion): string
  {
    "\"" + s.found + "\" might be \"" + s.expected + "\" (" + IntToString(s.similarity) + "% match)"
  }

  function SuggestionItems(ss: seq<Suggestion>): (items: seq<Item>)
    ensures |items| == |ss| && forall i :: 0 <= i < |ss| ==> items[i] == Item(SuggestionText(ss[i]), None, None)
  {
    seq(|ss|, i requires 0 <= i < |ss| => Item(SuggestionText(ss[i]), None, None))
  }

  /** The section one warning contributes. */
  function WarningSection(w: CsvWarning): Section
  {
    match w
    case PossibleMisspelling(ss) => ItemSection("\U{1F4A1} Did You Mean?", "warning", SuggestionItems(ss))
    case ExtraColumns(extra) => ItemSection("\U{26A0}\U{FE0F} Extra Columns (Will Be Ignored)", "warning", TextItems(extra))
  }

  /** The sections for the warnings, in warning order. */
  function WarningSections(ws: seq<CsvWarning>): (ss: seq<Section>)
    ensures |ss| == |ws| && forall i :: 0 <= i < |ws| ==> ss[i] == WarningSection(ws[i])
  {
    seq(|ws|, i requires 0 <= i < |ws| => WarningSection(ws[i]))
  }

  /** The three sections of a missing-columns error. */
  function MissingSections(t: Template, e: CsvError): seq<Section>
    requires e.MissingColumns?
  {
    [ItemSection("\U{274C} Missing Required Columns", "error", MissingItems(t, e.missing)),
     ItemSection("\U{2705} Columns Found in Your File", "info", TextItems(e.found)),
     ItemSection("\U{1F4CB} Expected Columns", "info", ExpectedItems(t, e.expected))]
  }

  /** `Object.keys(example).join(',') + '\n' + Object.values(example).join(',')` */
  function CsvExample(t: Template): string
  {
    Join(Keys(t.example), ",") + "\n" + Join(Values(t.example), ",")
  }

  function FormatExample(t: Template): Section
  {
    FormatSection("\U{1F4DD} Correct CSV Format", "success", CsvExample(t))
  }

  function ReportTitle(templateType: string): string
  {
    "CSV Structure Error - " + Capitalize(templateType) + " Import"
  }

  /** What `generateErrorReport(validation, templateType)` returns. */
  function ErrorReport(v: Validation, templateType: string): Report
    requires v.template.Some?
  {
    var t := v.template.value;
    var summary := if |v.errors| > 0 then ErrorMessage(v.errors[0]) else Some("");
    var head := if |v.errors| > 0 && v.errors[0].MissingColumns? then MissingSections(t, v.errors[0]) else [];
    Report(ReportTitle(templateType), summary, head + WarningSections(v.warnings) + [FormatExample(t)])
  }

  /** `generateErrorReport`. The source reads `validation.warnings` and
      `validation.template.example`, which an unknown-template result lacks,
      so the validation must carry a template. */
  method GenerateErrorReport(v: Validation, templateType: string) returns (report: Report)
    requires v.template.Some?
    ensures report == ErrorReport(v, templateType)
  {
    var t := v.template.value;
    var summary: Option<string> := Some("");
    var sections: seq<Section> := [];
    if |v.errors| > 0 {
      var error := v.errors[0];
      summary := ErrorMessage(error);
      if error.MissingColumns? {
        sections := sections + [ItemSection("\U{274C} Missing Required Columns", "error", MissingItems(t, error.missing))];
        sections := sections + [ItemSection("\U{2705} Columns Found in Your File", "info", TextItems(error.found))];
        sections := sections + [ItemSection("\U{1F4CB} Expected Columns", "info", ExpectedItems(t, error.expected))];
      }
    }
    assert sections == if |v.errors| > 0 && v.errors[0].MissingColumns? then MissingSections(t, v.errors[0]) else [];
    sections := AppendWarningSections(sections, v.warnings);
    sections := sections + [FormatSection("\U{1F4DD} Correct CSV Format", "success", CsvExample(t))];
    report := Report(ReportTitle(templateType), summary, sections);
  }

  /** The loop of `generateErrorReport` over the warnings. */
  method AppendWarningSections(head: seq<Section>, warnings: seq<CsvWarning>) returns (sections: seq<Section>)
    ensures sections == head + WarningSections(warnings)
  {
    sections := head;
    for k := 0 to |warnings|
      invariant sections == head + WarningSections(warnings[..k])
    {
      var warning := warnings[k];
      if warning.PossibleMisspelling? {
        sections := sections + [ItemSection("\U{1F4A1} Did You Mean?", "warning", SuggestionItems(warning.suggestions))];
      } else {
        sections := sections + [ItemSection("\U{26A0}\U{FE0F} Extra Columns (Will Be Ignored)", "warning", TextItems(warning.extra))];
      }
      assert WarningSections(warnings[..k + 1]) == WarningSections(warnings[..k]) + [WarningSection(warning)];
    }
    assert warnings[..|warnings|] == warnings;
  }

  /** The report always ends with the "Correct CSV Format" example built
      from the template's keys and values; a missing-columns error puts its
      three sections first, and every warning adds one section in between. */
  lemma ReportShape(v: Validation, templateType: string)
    requires v.template.Some?
    ensures var r := ErrorReport(v, templateType);
            var missingFirst := |v.errors| > 0 && v.errors[0].MissingColumns?;
            var h := if missingFirst then 3 else 0;
            |r.sections| == h + |v.warnings| + 1
            && r.sections[|r.sections| - 1] == FormatSection("\U{1F4DD} Correct CSV Format", "success", CsvExample(v.template.value))
            && (missingFirst ==> r.sections[0].items == MissingItems(v.template.value, v.errors[0].missing))
            && (forall i :: 0 <= i < |v.warnings| ==> r.sections[h + i] == WarningSection(v.warnings[i]))
  {
    var t := v.template.value;
    var missingFirst := |v.errors| > 0 && v.errors[0].MissingColumns?;
    var head := if missingFirst then MissingSections(t, v.errors[0]) else [];
    var r := ErrorReport(v, templateType);
    assert r.sections == head + WarningSections(v.warnings) + [FormatExample(t)];
    SectionsShape(r.sections, v, head);
  }

  /** The shape of a section list assembled from a head, the warning
      sections and the format example. */
  lemma SectionsShape(sections: seq<Section>, v: Validation, head: seq<Section>)
    requires v.template.Some?
    requires sections == head + WarningSections(v.warnings) + [FormatExample(v.template.value)]
    requires head == if |v.errors| > 0 && v.errors[0].MissingColumns? then MissingSections(v.template.value, v.errors[0]) else []
    ensures var missingFirst := |v.errors| > 0 && v.errors[0].MissingColumns?;
            var h := if missingFirst then 3 else 0;
            |sections| == h + |v.warnings| + 1
            && sections[|sections| - 1] == FormatSection("\U{1F4DD} Correct CSV Format", "success", CsvExample(v.template.value))
            && (missingFirst ==> sections[0].items == MissingItems(v.template.value, v.errors[0].missing))
            && (forall i :: 0 <= i < |v.warnings| ==> sections[h + i] == WarningSection(v.warnings[i]))
  {
    Layout(head, v.warnings, FormatExample(v.template.value));
  }

  /** Where the parts of the section list end up. */
  lemma Layout(head: seq<Section>, warnings: seq<CsvWarning>, last: Section)
    ensures var r := head + WarningSections(warnings) + [last];
            |r| == |head| + |warnings| + 1 && r[|r| - 1] == last
            && (|head| > 0 ==> r[0] == head[0])
            && forall i :: 0 <= i < |warnings| ==> r[|head| + i] == WarningSection(warnings[i])
  {
    var ws := WarningSections(warnings);
    var r := head + ws + [last];
    forall i | 0 <= i < |warnings|
      ensures r[|head| + i] == WarningSection(warnings[i])
    {
      assert r[|head| + i] == ws[i];
    }
  }

  /** For a structure validation, the report's summary is the
      missing-columns message when columns are missing and empty otherwise. */
  lemma ReportSummary(t: Template, headers: seq<string>, templateType: string)
    ensures var v := StructureFor(t, headers);
            var r := ErrorReport(v, templateType);
            (v.valid ==> r.summary == Some(""))
            && (!v.valid ==> r.summary == Some("Missing " + NatToString(|v.errors[0].missing|) + " required column(s)"))
  {
  }
}

# Expense back office: a verified model

This project models the bulk-import and approval back office of a React
expense-management application. It covers:

- payee-name reconciliation (edit distance, name normalisation, best-match search);
- CSV template checks, the CSV reader and the per-row business rules;
- the six-state approval workflow;
- role-based permissions and the prepend-only audit ledger;
- the expense, vendor and employee hooks together with the four context reducers;
- pagination and the paginator's page list;
- the way the error dialog sorts errors into buckets.

The model is written in Dafny. Plain JavaScript objects are `map<string, string>`
(`Js.Record`). A missing key reads as `undefined`; `""` is the only falsy text.
Amounts are exact rationals (`real`), parsed by a model of `parseFloat`. The clock,
the id generator, the random id suffix, `JSON.stringify` and
`toLocaleString` become parameters. What the source does in place is modelled in
place:

- the edit-distance table is an `array2` filled by nested loops;
- the hooks are classes whose methods change their collection and prepend to a
  shared `AuditTrail` object;
- the paging state is a class whose methods clamp the current page;
- the loops that push into arrays are `while` loops proved against a
  specification function.

The pure parts (the reducers, the tables and the predicates) are functions, and
lemmas state what the source promises about them.

Two behaviours of the best-match search are worth knowing:

- `findBestMatch('BHAIRAAV', [BHAIRAAV WATER SYSTEMS], 0.6)` returns the vendor with
  confidence 0.38. The substring rule (src/utils/fuzzyMatching.js:59-66) scores
  8/20 × 0.95; see `FuzzyMatching.BhairaavExample`.
- The substring rule never compares its score with the threshold, so a candidate
  below the threshold can be returned; see `FuzzyMatching.SubstringSkipsThreshold`.

One module per source file:

| module | source |
|---|---|
| `Js` | JavaScript string, array and object primitives used throughout |
| `FuzzyMatching` | src/utils/fuzzyMatching.js |
| `CsvValidator` | src/utils/csvValidator.js |
| `Validation` | src/utils/validation.js |
| `Constants` | src/config/constants.js |
| `ExportUtils` | src/utils/exportUtils.js |
| `ApprovalWorkflow` | src/utils/approvalWorkflow.js |
| `EnterpriseUtils` | src/utils/enterpriseUtils.js |
| `AuditUtils` | src/utils/auditUtils.js |
| `UseExpenses`, `UseVendors`, `UseEmployees` | src/hooks/useExpenses.js, useVendors.js, useEmployees.js |
| `DataContext`, `ExpenseContext`, `AuditContext`, `AuthContext` | src/contexts/*.jsx |
| `Pagination` | src/hooks/usePagination.js |
| `Paginator` | src/components/common/Paginator.jsx |
| `ErrorDisplay` | src/components/ErrorDisplay.jsx |

## Model

| member | source | states |
|---|---|---|
| FuzzyMatching.LevCell | src/utils/fuzzyMatching.js:17-25 | each table cell is the copy of its diagonal neighbour on equal characters, else one plus the least of its three neighbours, in terms of the recursive distance `Lev` |
| FuzzyMatching.FillRow | src/utils/fuzzyMatching.js:16-26 | the inner loop fills row `i` with the distances of the `str1` prefixes to `str2[..i]` and leaves every other row as it was |
| FuzzyMatching.LevenshteinDistance | src/utils/fuzzyMatching.js:4-30 | the table read at `[|str2|][|str1|]` is the edit distance `Lev(str1, str2)`; the copy at src/utils/csvValidator.js lines 138-164 is the same table, so this member models both |
| FuzzyMatching.LevSelf | src/utils/fuzzyMatching.js:4-30 | a string is at distance 0 from itself |
| FuzzyMatching.LevEmpty | src/utils/fuzzyMatching.js:7-13 | from the empty string the distance is the other length, both ways round |
| FuzzyMatching.LevAtMostLonger | src/utils/fuzzyMatching.js:4-30 | the distance never exceeds the longer length |
| FuzzyMatching.LevAtLeastLengthGap | src/utils/fuzzyMatching.js:4-30 | the distance is at least the difference of the lengths |
| FuzzyMatching.LevSymmetric | src/utils/fuzzyMatching.js:4-30 | the distance does not depend on the order of the arguments |
| FuzzyMatching.LevZeroIff | src/utils/fuzzyMatching.js:4-30 | distance 0 exactly when the strings are equal |
| FuzzyMatching.KeepLowerAlnum | src/utils/fuzzyMatching.js:35 | `replace(/[^a-z0-9]/g, '')` leaves only `[a-z0-9]` characters and never lengthens |
| FuzzyMatching.KeepLowerAlnumAppend | src/utils/fuzzyMatching.js:35 | the character filter distributes over concatenation |
| FuzzyMatching.KeepLowerAlnumTrim | src/utils/fuzzyMatching.js:35 | trimming before the filter changes nothing, since the filter drops every space |
| FuzzyMatching.Normalize | src/utils/fuzzyMatching.js:33-36 | the normalised name holds only `[a-z0-9]` and is no longer than the input; `''` maps to `''` |
| FuzzyMatching.NormalizeIsPipeline | src/utils/fuzzyMatching.js:33-36 | the one-pass definition equals `''` for a falsy input and otherwise lower-case, then trim, then the filter, as the source chains them |
| FuzzyMatching.NormalizeIdempotent | src/utils/fuzzyMatching.js:33-36 | normalising twice is normalising once |
| FuzzyMatching.NormalizeAppend | src/utils/fuzzyMatching.js:33-36 | normalisation distributes over concatenation |
| FuzzyMatching.BestMatch | src/utils/fuzzyMatching.js:39-82 | an empty query, a missing list or an empty list gives no match |
| FuzzyMatching.VisitCandidate | src/utils/fuzzyMatching.js:47-79 | the `forEach` callback updates `bestMatch`/`bestScore` exactly as the three-rule step function `Step` |
| FuzzyMatching.FindBestMatch | src/utils/fuzzyMatching.js:39-82 | the loop over the candidates returns what `BestMatch` specifies |
| FuzzyMatching.BestMatchUnfold | src/utils/fuzzyMatching.js:40-81 | for a non-empty query and list the result is the scan of the list from no candidate and score 0, wrapped as `{match, confidence}` |
| FuzzyMatching.ConfidenceInRange | src/utils/fuzzyMatching.js:44-81 | any match found has a confidence in (0, 1], whatever the threshold |
| FuzzyMatching.StepKeepsFull | src/utils/fuzzyMatching.js:51-78 | once the score is 1.0, only another exact candidate replaces the stored one |
| FuzzyMatching.ScanLastExact | src/utils/fuzzyMatching.js:47-79 | after the last exact candidate the state is that candidate with score 1.0 |
| FuzzyMatching.AfterFull | src/utils/fuzzyMatching.js:47-79 | with score 1.0 and no exact candidate left, the scan changes nothing |
| FuzzyMatching.ExactMatchWins | src/utils/fuzzyMatching.js:51-56 | when some candidate normalises to the query, the LAST such candidate is returned with confidence 1.0 |
| FuzzyMatching.StepJustified | src/utils/fuzzyMatching.js:47-79 | one step keeps the state or takes the visited item, and the kept choice is justified by one of the three rules |
| FuzzyMatching.ScanJustified | src/utils/fuzzyMatching.js:47-79 | the scan keeps a justified choice drawn from the list or from the start state |
| FuzzyMatching.MatchIsJustified | src/utils/fuzzyMatching.js:39-82 | every match comes from the list and is justified: exact at 1.0, substring at `shorter/longer * 0.95`, or edit similarity at least the threshold |
| FuzzyMatching.SubstringSkipsThreshold | src/utils/fuzzyMatching.js:59-68 | a substring candidate is taken with the scaled score even above any threshold |
| FuzzyMatching.BhairaavExample | src/utils/fuzzyMatching.js:59-68 | `findBestMatch('BHAIRAAV', [BHAIRAAV WATER SYSTEMS], 0.6)` returns that vendor with confidence 0.38 |
| FuzzyMatching.LaterEqualSubstringReplaces | src/utils/fuzzyMatching.js:64-67 | since the unscaled score is compared with the stored scaled one, a later candidate with the same substring score replaces the earlier one |
| FuzzyMatching.MatchBatch | src/utils/fuzzyMatching.js:85-90 | one entry per item, in order, holding the item and the search for its `name` |
| FuzzyMatching.BandsAgreeWithConfirmation | src/utils/fuzzyMatching.js:93-103 | the bands are monotone in the score, High exactly from 0.95, and a score not needing confirmation (at least 0.9) is High or Medium while Low and Very Low always need it |
| FuzzyMatching.ConfidenceLabel | src/utils/fuzzyMatching.js:93-98 | High exactly from 0.95, Medium exactly on [0.8, 0.95), Low exactly on [0.6, 0.8), Very Low exactly below 0.6 |
| FuzzyMatching.NeedsConfirmation | src/utils/fuzzyMatching.js:101-103 | a High label never needs confirmation; a Low or Very Low label always does |
| FuzzyMatching.ExactMatchIsHigh | src/utils/fuzzyMatching.js:51-56 | an exact match is labelled High and needs no confirmation |
| CsvValidator.CsvTemplate | src/utils/csvValidator.js:5-47 | exactly the three template names `vendor`, `employee` and `expense` are known |
| CsvValidator.ExampleOf | src/utils/csvValidator.js:9-45 | `template.example[col]` is defined exactly when the example table has that column |
| CsvValidator.TemplatesWellFormed | src/utils/csvValidator.js:5-47 | in each template the required and optional columns are distinct, and every column has an example value |
| CsvValidator.CalculateSimilarity | src/utils/csvValidator.js:128-136 | the method computes the specification `Similarity`: 1.0 for two empty strings, else `(longer - d) / longer` |
| CsvValidator.SimilarityFormula | src/utils/csvValidator.js:128-136 | the similarity equals `1 - d / max(len)` for the edit distance `d`, and 1.0 for two empty strings |
| CsvValidator.SimilaritySymmetric | src/utils/csvValidator.js:128-136 | the similarity does not depend on the argument order |
| CsvValidator.SimilarityRange | src/utils/csvValidator.js:128-136 | the similarity lies in [0, 1] and is 1 exactly for equal strings |
| CsvValidator.SimilarityAgreesWithSearch | src/utils/csvValidator.js:128-136 | for distinct strings it is the same number the payee search computes |
| CsvValidator.Percent | src/utils/csvValidator.js:103 | `Math.round(similarity * 100)` is the integer nearest `similarity * 100`, halves rounding up |
| CsvValidator.TrimAll | src/utils/csvValidator.js:58 | `found` is each header trimmed, in order |
| CsvValidator.MissingIff | src/utils/csvValidator.js:63-65 | the spec function `Missing`: a column is missing exactly when it is required and no trimmed header equals it ignoring case; the missing list keeps template order |
| CsvValidator.ExtraIff | src/utils/csvValidator.js:79-82 | the spec function `Extra`: a header is extra exactly when it equals no expected column ignoring case, and is then listed as often as the file has it; the extra list keeps file order |
| CsvValidator.MissingEmptyIff | src/utils/csvValidator.js:63-67 | nothing is missing exactly when every required column is matched by some header |
| CsvValidator.FindMisspellings | src/utils/csvValidator.js:95-107 | the nested loops push exactly the pairs the specification `Misspellings` lists |
| CsvValidator.HintsForIff | src/utils/csvValidator.js:97-106 | for one missing column, a suggestion is pushed exactly for each found column whose lower-case similarity exceeds 0.6, with the rounded percentage |
| CsvValidator.MisspellingsIff | src/utils/csvValidator.js:95-107 | a suggestion is emitted exactly for the (missing, found) pairs whose lower-case similarity exceeds 0.6 |
| CsvValidator.ValidateCsvStructure | src/utils/csvValidator.js:50-125 | the method returns the specification `Structure`, including the unknown-template error |
| CsvValidator.ValidateAgainst | src/utils/csvValidator.js:56-124 | for a known template the pushes into `errors` and `warnings` give the specification `StructureFor` |
| CsvValidator.UnknownTemplateFails | src/utils/csvValidator.js:51-54 | an unknown template type gives `valid=false` and the single error "Unknown template type: …" |
| CsvValidator.ValidIff | src/utils/csvValidator.js:67-76 | `valid` holds exactly when every required column is matched by a trimmed header, ignoring case (also lines 118-124) |
| CsvValidator.MissingErrorContents | src/utils/csvValidator.js:67-76 | the one error lists exactly the unmatched required columns, says "Missing n required column(s)" and expects required then optional |
| CsvValidator.ExtraHeaderKeepsValid | src/utils/csvValidator.js:79-92 | an unrecognised header never changes `valid` |
| CsvValidator.WarningContents | src/utils/csvValidator.js:79-116 | the warnings are only the extra-columns warning and the misspelling warning, with exactly the extra headers and the suggested pairs |
| CsvValidator.ValidateRowData | src/utils/csvValidator.js:241-258 | the loop over the required columns returns the specification `RowErrors` |
| CsvValidator.CheckRequired | src/utils/csvValidator.js:245-255 | for any template, the `forEach` over the required columns pushes exactly the errors `RowErrors` lists, in column order |
| CsvValidator.RowErrorsSnoc | src/utils/csvValidator.js:245-255 | one more required column adds an error for it exactly when its value is absent or blank after trim |
| CsvValidator.RowErrorsIff | src/utils/csvValidator.js:245-255 | a column has an error exactly when it is required and its value is absent or blank, and the errors keep template order |
| CsvValidator.RowErrorsTagged | src/utils/csvValidator.js:248-253 | every error carries row `rowIndex + 2`, "Missing required field: col" and the template's example |
| CsvValidator.OptionalNeverErrors | src/utils/csvValidator.js:245-255 | an optional column never produces an error |
| CsvValidator.Capitalize | src/utils/csvValidator.js:169 | the title's template name has its first letter upper-cased and the rest kept |
| CsvValidator.MissingItems | src/utils/csvValidator.js:184-187 | one item per missing column, with its example |
| CsvValidator.ExpectedItems | src/utils/csvValidator.js:199-203 | one item per expected column, marked required exactly when the template requires it, with its example |
| CsvValidator.SuggestionItems | src/utils/csvValidator.js:215-217 | one item per suggestion, in order |
| CsvValidator.WarningSections | src/utils/csvValidator.js:209-227 | one section per warning, in order |
| CsvValidator.GenerateErrorReport | src/utils/csvValidator.js:167-238 | the pushes into `report.sections` give the specification `ErrorReport` |
| CsvValidator.AppendWarningSections | src/utils/csvValidator.js:209-227 | the `forEach` over the warnings appends one section per warning, in warning order |
| CsvValidator.ReportShape | src/utils/csvValidator.js:174-235 | three sections for a missing-columns error, then one per warning, and always last the "Correct CSV Format" section built from the example's keys and values |
| CsvValidator.ReportSummary | src/utils/csvValidator.js:174-177 | the summary is empty for a valid file and otherwise the first error's message |
| Validation.ValidateExpenseAmount | src/utils/validation.js:6-33 | an unknown type gives `{valid: true, warnings: []}`; a non-numeric amount gives `{valid: false, ['Invalid amount']}`; `valid` holds exactly when there is no warning; at most three warnings |
| Validation.AmountWarningsIff | src/utils/validation.js:15-32 | for a parsed amount, each of the three warnings appears exactly when its bound is set (non-zero) and breached, and their number is the number of breached bounds |
| Validation.ParsedAmount | src/utils/validation.js:15-32 | the unfolding step behind `AmountWarningsIff`: for a parsed amount it fixes the warning order below, above, alert, valid when none |
| Validation.PetrolAt5000 | src/utils/validation.js:17-27 | Petrol at 5000 gives exactly one warning, above the normal range of 3000 |
| Validation.OtherAt6000 | src/utils/validation.js:17-27 | "Other" at 6000 gives two warnings, above the maximum and above the alert threshold, both 5000 |
| Validation.CheckDuplicateExpense | src/utils/validation.js:36-49 | `null` exactly when nothing matches, otherwise the list of duplicates |
| Validation.DuplicatesIff | src/utils/validation.js:37-46 | the spec function `Duplicates`: an expense is returned exactly when it is in the list, is not rejected, and matches on date, type and payee name with an amount difference below 0.01; each match is returned as often as the list holds it, in list order |
| Validation.RejectedNeverDuplicate | src/utils/validation.js:38 | no rejected expense is ever reported as a duplicate |
| Validation.EmployeeErrors | src/utils/validation.js:55-71 | at most three messages for one payroll row |
| Validation.ValidateEmployeeData | src/utils/validation.js:52-74 | the `forEach` pushes exactly the messages of the specification `PayrollErrors` |
| Validation.EmployeeCleanIff | src/utils/validation.js:60-70 | a row has no message exactly when it has no earnings or its bank account, IFSC and bank name are all filled in |
| Validation.PayrollCleanIff | src/utils/validation.js:52-74 | the error list is empty exactly when every row with earnings has complete bank details |
| Validation.PayrollErrorsBound | src/utils/validation.js:52-74 | at most three messages per row |
| Validation.AsBulk | src/utils/validation.js:96-98 | the amount warnings are copied into the row warnings one for one, in order |
| Validation.BulkRowErrorsIff | src/utils/validation.js:82-86 | the spec function `BulkErrors`: the three errors appear exactly for a missing Type, a missing Payee Name and a missing or non-numeric Amount, and the list is empty exactly when none of these holds |
| Validation.UnknownTypeOnlyWarns | src/utils/validation.js:89-91 | an unknown type yields only the "Unknown expense type" warning |
| Validation.ValidateBulkRow | src/utils/validation.js:77-102 | at most three errors; a warning only for a row with a type; a warning is the unknown-type one exactly when the type is not in the table, so the two kinds of warning never mix |
| Validation.InvalidAmountTwice | src/utils/validation.js:84-98 | for a known type, a non-numeric amount is an error and also yields the "Invalid amount" warning from the range check |
| Validation.SeedIfscValid | src/utils/validation.js:105-108 | every seed vendor's IFSC has four capital letters, `0` and six capital letters or digits |
| Validation.ValidIfsc | src/utils/validation.js:105-108 | an accepted IFSC code is made only of capital letters and digits |
| Validation.ValidDate | src/utils/validation.js:111-126 | an accepted date is ten characters that split at `/` into day, month and year |
| Validation.DateSplit | src/utils/validation.js:112-119 | any `DD/MM/YYYY` shape splits at `/` into its two-digit day, two-digit month and four-digit year |
| Validation.NoPerMonthCheck | src/utils/validation.js:111-126 | `31/02/2024` is accepted, with no per-month day check; month 13, year 2101 and one-digit fields are refused |
| Validation.ThreePartIso | src/utils/validation.js:132-136 | three `/`-separated parts give `year-pad2(month)-pad2(day)` |
| Validation.ParseDateToIso | src/utils/validation.js:129-137 | any input without exactly three `/`-separated parts, the empty string included, gives today's date, passed in as a parameter |
| Validation.SplitThree | src/utils/validation.js:132-135 | three parts free of `/` joined by `/` split back into those three parts |
| Validation.ValidDateToIso | src/utils/validation.js:111-137 | a valid `DD/MM/YYYY` date becomes `YYYY-MM-DD` |
| Constants.ExpenseTypeOf | src/config/constants.js:45-151 | exactly the configured type names have a range entry |
| Constants.RangesOrdered | src/config/constants.js:45-151 | every expense type has `minAmount <= maxAmount` |
| Constants.OnlyOtherAlerts | src/config/constants.js:142-150 | only "Other" has an `alertThreshold`, equal to its `maxAmount` of 5000 |
| Constants.RateZeroIffNoTds | src/config/constants.js:45-151 | `rate` is 0 exactly for the types whose `tds` is null |
| Constants.SeedRecord | src/config/constants.js:3-15 | a seed vendor is the object with exactly the seven fields of the table |
| Constants.InitialVendors | src/config/constants.js:2-16 | the seed directory lists the thirteen vendors in table order |
| Constants.SeedIds | src/config/constants.js:2-16 | the seed ids are V001 to V013, in order |
| Constants.SeedIdsDistinct | src/config/constants.js:2-16 | the seed ids are pairwise distinct |
| ExportUtils.GenerateJournalNumber | src/utils/exportUtils.js:13-17 | the number starts with the prefix and a dash |
| ExportUtils.SerialValue | src/utils/exportUtils.js:16 | the index is written in at least three digits, exactly three below 1000, and reads back as the index |
| ExportUtils.DateStampValue | src/utils/exportUtils.js:15 | the date stamp is eight digits reading as `YYYYMMDD` |
| ExportUtils.JournalNumberLayout | src/utils/exportUtils.js:13-17 | the number is `prefix-YYYYMMDD-NNN`: the eight digits read back as the date and the digits after the second dash as the index |
| ExportUtils.HeadersClean | src/utils/exportUtils.js:184 | one header per comma cell of the first line, none containing `"` |
| ExportUtils.MarkedHeader | src/utils/exportUtils.js:184 | a header marked `Name*` or `"Name*"` is cleaned to `Name`: trimmed, every quote and the first star removed |
| ExportUtils.SplitQuoted | src/utils/exportUtils.js:192-208 | the character loop over `current` and `inQuotes` returns the specification `QuotedFields` |
| ExportUtils.PlainLine | src/utils/exportUtils.js:196-208 | a line without quotes splits at every comma, each field trimmed |
| ExportUtils.QuotedFieldKeepsCommas | src/utils/exportUtils.js:199-206 | a comma inside double quotes does not split a field |
| ExportUtils.DoubledQuoteNotEscape | src/utils/exportUtils.js:199-200 | a doubled quote inside a quoted field is not an escaped quote: both quotes vanish, unlike section 2 of RFC 4180 |
| ExportUtils.NoQuoteInFields | src/utils/exportUtils.js:199-206 | no parsed value contains `"` |
| ExportUtils.BuildRow | src/utils/exportUtils.js:210-213 | the `forEach` over the headers builds the specification `RowOf` |
| ExportUtils.RowKeys | src/utils/exportUtils.js:210-213 | a row has exactly the header names as keys |
| ExportUtils.RowValue | src/utils/exportUtils.js:212 | the last column of a name holds the value at that position with quotes removed, or `''` when the line has fewer values |
| ExportUtils.RowUnquoted | src/utils/exportUtils.js:212 | no row value contains `"` |
| ExportUtils.RowsOf | src/utils/exportUtils.js:190-216 | one row per data line |
| ExportUtils.ParseRows | src/utils/exportUtils.js:190-216 | the loop over the data lines returns `RowsOf` |
| ExportUtils.ParseCsvData | src/utils/exportUtils.js:173-219 | the method returns the specification `ParseCsv`, an error or the rows |
| ExportUtils.ParseCsvFails | src/utils/exportUtils.js:180-182 | the parse fails, with "File appears to be empty or invalid", exactly when fewer than two lines survive the filter |
| ExportUtils.KeptLinesSound | src/utils/exportUtils.js:174-178 | the kept lines are, in order and with their repeats, exactly the lines of the trimmed text that are non-blank, do not start with `===` and do not contain "sample data" in any case |
| ExportUtils.ParsedRows | src/utils/exportUtils.js:185-190 | one row per surviving data line; a line survives exactly when its first naive cell is non-empty and lacks `dd/mm/yyyy`, as often as it occurs, and the order is kept |
| ExportUtils.ParsedRowShape | src/utils/exportUtils.js:190-216 | every parsed row has exactly the header names as keys, no quote in any value, and the value at the header's position or `''` |
| ApprovalWorkflow.Targets | src/utils/approvalWorkflow.js:32-43 | a state has at most three successors; an unknown or missing state has none |
| ApprovalWorkflow.MovableStates | src/utils/approvalWorkflow.js:32-45 | some transition exists exactly from draft, pending and approved; rejected, paid, cancelled and unknown states are terminal |
| ApprovalWorkflow.TransitionsMoveForward | src/utils/approvalWorkflow.js:32-45 | every allowed transition moves to a later stage, so no state has a self-transition and the table has no cycle |
| ApprovalWorkflow.ActionTarget | src/utils/approvalWorkflow.js:94-100 | exactly the five actions submit, approve, reject, cancel and mark_paid have a target state |
| ApprovalWorkflow.GetNewState | src/utils/approvalWorkflow.js:93-102 | a known action maps to its state (pending, approved, rejected, cancelled, paid); an unknown action leaves the state unchanged |
| ApprovalWorkflow.ValidateApprovalAction | src/utils/approvalWorkflow.js:222-258 | `valid` holds exactly when the error list is empty, and at most three errors are pushed |
| ApprovalWorkflow.StateErrorDistinct | src/utils/approvalWorkflow.js:228-250 | the state error is never one of the four fixed permission messages, so each violation adds its own message |
| ApprovalWorkflow.ValidationErrorsIff | src/utils/approvalWorkflow.js:225-252 | each of the five messages appears exactly when its own rule is broken: the table forbids the move, a non-approver decides, the submitter decides, a non-submitter submits or cancels, a non-admin marks paid |
| ApprovalWorkflow.UnknownActionFails | src/utils/approvalWorkflow.js:226-229 | an unknown action keeps the state, so no transition exists and validation fails |
| ApprovalWorkflow.SelfApprovalFails | src/utils/approvalWorkflow.js:237-239 | approve or reject by the submitter always fails with "You cannot approve your own expense", whatever the role |
| ApprovalWorkflow.ValidActionNeeds | src/utils/approvalWorkflow.js:222-258 | a valid action is known, allowed by the table from the status, done by a non-submitting approver for decisions, by the submitter for submit/cancel and by an admin for mark_paid |
| ApprovalWorkflow.GetAvailableActions | src/utils/approvalWorkflow.js:48-74 | at most three actions are offered |
| ApprovalWorkflow.SubmitterActions | src/utils/approvalWorkflow.js:53-60 | the submitter is offered submit in draft and cancel in draft or pending |
| ApprovalWorkflow.ApproverActions | src/utils/approvalWorkflow.js:63-71 | an admin or manager is offered approve and reject in pending and mark_paid in approved |
| ApprovalWorkflow.ActionsOffered | src/utils/approvalWorkflow.js:48-74 | the submitter's offers come first, then the approver's |
| ApprovalWorkflow.OffersFollowTable | src/utils/approvalWorkflow.js:48-74 | every offered action targets a state the table allows from the current state, with `draft` for a missing status |
| ApprovalWorkflow.OffersIff | src/utils/approvalWorkflow.js:48-74 | each action is offered exactly under its condition, and rejected, paid and cancelled offer nothing |
| ApprovalWorkflow.SelfApprovalOffered | src/utils/approvalWorkflow.js:63-67 | a manager who submitted a pending expense is offered approve, which validation then refuses (also lines 237-239) |
| ApprovalWorkflow.ManagerPaymentOffered | src/utils/approvalWorkflow.js:68-70 | a manager is offered mark_paid on an approved expense, which validation refuses (also lines 248-252) |
| ApprovalWorkflow.MissingStatusOffered | src/utils/approvalWorkflow.js:50-55 | with no status the submitter is offered submit, which validation refuses since it reads the missing status itself (also lines 226-229) |
| ApprovalWorkflow.CreateApprovalRecord | src/utils/approvalWorkflow.js:77-90 | the record keeps the previous status, the performer's username and role |
| ApprovalWorkflow.RecordedStates | src/utils/approvalWorkflow.js:85-86 | for a valid action the recorded states form an allowed transition to the action's state; for an unknown action the two states are equal |
| ApprovalWorkflow.GetApprovalSummary | src/utils/approvalWorkflow.js:105-148 | the `forEach` over the expenses increments the counters as the specification `ApprovalSummary` |
| ApprovalWorkflow.TallyCounts | src/utils/approvalWorkflow.js:119-145 | each expense adds one to the six state counts unless its status is unknown, and `total` is untouched |
| ApprovalWorkflow.UnknownZero | src/utils/approvalWorkflow.js:123-144 | no expense is left uncounted exactly when every status is one of the six states |
| ApprovalWorkflow.SummaryCountsBound | src/utils/approvalWorkflow.js:105-148 | the spec function `ApprovalSummary`: the six counts sum to at most `total`, with equality exactly when every status is one of the six states |
| ApprovalWorkflow.TallyAmounts | src/utils/approvalWorkflow.js:120-134 | with non-negative amounts, pending plus approved never exceeds the total after any prefix |
| ApprovalWorkflow.SummaryAmountsBound | src/utils/approvalWorkflow.js:105-148 | `pendingAmount + approvedAmount <= totalAmount` for non-negative amounts |
| ApprovalWorkflow.GetExpenseTimeline | src/utils/approvalWorkflow.js:151-219 | the timeline has one to five events and starts with "Created" |
| ApprovalWorkflow.EventsOfParts | src/utils/approvalWorkflow.js:151-219 | the events are "Created", then submission, decision, payment and cancellation, each at most once |
| ApprovalWorkflow.EventNamesMembers | src/utils/approvalWorkflow.js:155-216 | each event name appears exactly under its flag, "Rejected" only without approval |
| ApprovalWorkflow.TimelineEvents | src/utils/approvalWorkflow.js:151-219 | the spec function `Events`: "Created" is first and only first; each event appears exactly when its date is set; never both "Approved" and "Rejected" |
| EnterpriseUtils.ChangeText | src/utils/enterpriseUtils.js:123 | a change line starts with the key and is longer than it |
| EnterpriseUtils.Category | src/utils/enterpriseUtils.js:106-112 | the category is one of auth, file, approval, data, system |
| EnterpriseUtils.CategoryPrecedence | src/utils/enterpriseUtils.js:106-112 | each category is returned exactly when its verbs appear in the action and no earlier category's verbs do |
| EnterpriseUtils.CategoryExamples | src/utils/enterpriseUtils.js:106-112 | `expense_approved` is an approval, `permission_denied` falls through to system |
| EnterpriseUtils.CalculateChanges | src/utils/enterpriseUtils.js:115-128 | no changes when either side is missing; otherwise one line per key, keys distinct, and a key is listed exactly when the two sides differ on it |
| EnterpriseUtils.NoChangesForIdentical | src/utils/enterpriseUtils.js:115-128 | a record compared with itself gives no change lines |
| EnterpriseUtils.ChangeCount | src/utils/enterpriseUtils.js:115-128 | there are exactly as many change lines as keys on which the two records differ |
| EnterpriseUtils.DistinctKeysCount | src/utils/enterpriseUtils.js:119 | a change list with distinct keys has as many keys as lines |
| EnterpriseUtils.AuditTrail.constructor | src/utils/enterpriseUtils.js:79 | the ledger starts from the given entries |
| EnterpriseUtils.AuditTrail.LogAudit | src/utils/enterpriseUtils.js:79-103 | the new entry is prepended, carries the user, action, category, resource, before/after, computed changes, success flag, message, time and id, and the returned entry is that one; the ledger grows by exactly that entry in front, the old entries following in order |
| EnterpriseUtils.DeniedEntryShape | src/hooks/useExpenses.js:16-20 | a denied-permission entry is a failure with "Insufficient permissions", category system, no changes, no `before`, and the verb as `after.action` |
| EnterpriseUtils.SearchAuditLogs | src/utils/enterpriseUtils.js:131-168 | the chain of up to six filters returns the logs matching every active criterion, in order |
| EnterpriseUtils.AuditSearchSound | src/utils/enterpriseUtils.js:131-168 | the result is a subsequence of the logs; a log is in it exactly when it matches the text, user, category, resource and both date bounds, and then as often as the log holds it |
| EnterpriseUtils.AuditSearchIdentity | src/utils/enterpriseUtils.js:135-163 | an empty term with every filter unset or `all` returns the logs unchanged |
| EnterpriseUtils.SearchFiles | src/utils/enterpriseUtils.js:38-74 | the chain of up to six filters returns the file logs matching every active criterion, in order |
| EnterpriseUtils.FileSearchSound | src/utils/enterpriseUtils.js:38-74 | the result is a subsequence; a file log is in it exactly when it matches the text, type, action, status and both date bounds, and then as often as the list holds it |
| EnterpriseUtils.FileSearchIdentity | src/utils/enterpriseUtils.js:42-69 | an empty term with every filter unset or `all` returns the file logs unchanged |
| EnterpriseUtils.Texts | src/utils/enterpriseUtils.js:207-221 | the permission strings are `resource:action`, one per grant, in order |
| EnterpriseUtils.Permissions | src/utils/enterpriseUtils.js:207-227 | a non-admin role's list is the strings of its grants, an unknown or missing role's list is empty |
| EnterpriseUtils.GrantTextUnique | src/utils/enterpriseUtils.js:233 | `resource:action` identifies the grant when neither part contains a colon |
| EnterpriseUtils.TextsMember | src/utils/enterpriseUtils.js:233-234 | a permission string is listed exactly when its grant is in the table |
| EnterpriseUtils.NoWildcard | src/utils/enterpriseUtils.js:209-220 | no manager or user permission is the wildcard |
| EnterpriseUtils.HasPermissionSpec | src/utils/enterpriseUtils.js:224-235 | no user or no role denies; admin allows all; another role allows exactly its table's grants; an unknown role denies all |
| EnterpriseUtils.OnlyAdminChangesMasterData | src/utils/enterpriseUtils.js:207-235 | no role but admin may edit or delete vendors and employees or delete expenses |
| EnterpriseUtils.ActionsForMember | src/utils/enterpriseUtils.js:256-262 | an action is collected exactly when the table grants it on the resource |
| EnterpriseUtils.GetAllowedActions | src/utils/enterpriseUtils.js:249-265 | an admin gets the five fixed actions, any other role the actions its grants list for the resource |
| EnterpriseUtils.AllowedActionsIff | src/utils/enterpriseUtils.js:224-265 | for a non-admin, an action is allowed exactly when `hasPermission` grants it |
| AuditUtils.CreateAuditLog | src/utils/auditUtils.js:4-33 | the entry carries the user, action, category, resource, before/after and metadata as given, is a success, and lists one change per key of `after` that differs from `before` and is neither `lastModified` nor `addedDate`; none when either side is missing |
| AuditUtils.ChangeKeysCompared | src/utils/auditUtils.js:9-15 | this change list covers at most the keys the logAudit version lists; it leaves out exactly the keys only `before` has and the two untracked keys |
| AuditUtils.Category | src/utils/auditUtils.js:36-42 | the category is one of auth, file, approval, data, system |
| AuditUtils.CategoryPrecedence | src/utils/auditUtils.js:36-42 | each category is returned exactly when its words appear and no earlier category's do, with approval checked before file |
| AuditUtils.CategoriesDiffer | src/utils/auditUtils.js:36-42 | the two category functions disagree exactly when the action mentions a file verb and a decision, or `file` without a transfer verb, or `export` alone |
| AuditUtils.CategoryExamples | src/utils/auditUtils.js:36-42 | `file_approved` is approval here and file in the other; `data_export` is file here and system in the other |
| AuditUtils.Permissions | src/utils/auditUtils.js:66-85 | a non-admin role's list is the strings of its grants |
| AuditUtils.HasPermissionSpec | src/utils/auditUtils.js:82-93 | no user or no role denies; admin allows all; another role allows exactly its grants, with the arguments in the order (resource, action) |
| AuditUtils.HasPermission | src/utils/auditUtils.js:82-93 | a missing user or role is denied everything; admin is allowed everything |
| AuditUtils.PermissionsCompared | src/utils/auditUtils.js:66-93 | the two permission tables disagree for a manager exactly on expense:update, expense:reject, file:export_own and for a user exactly on template:download |
| AuditUtils.ManagerRejects | src/utils/auditUtils.js:69 | a manager may reject here, but not under the other table, though both let them approve |
| AuditUtils.FilterAuditLogs | src/utils/auditUtils.js:132-148 | the result is a subsequence; a log is kept exactly when it passes every set filter and the case-folded search, and then as often as the log holds it |
| AuditUtils.FilterAuditLogsUnset | src/utils/auditUtils.js:132-148 | with no filter set every log is kept |
| AuditUtils.AllIsLiteral | src/utils/auditUtils.js:134 | a user filter of `'all'` is compared literally, so every log it keeps has user id `'all'`, unlike the `'all'` wildcard of `searchAuditLogs` |
| AuditUtils.FilterAuditLogsIgnoresCase | src/utils/auditUtils.js:141 | lower-casing the search term first changes nothing |
| AuditUtils.FilterMatchesSearch | src/utils/auditUtils.js:132-148 | without an action filter and with no filter set to `all`, this filter keeps the same logs as the searchAuditLogs chain |
| AuditUtils.FilterFileLogs | src/utils/auditUtils.js:151-163 | the result is a subsequence; a file log is kept exactly when it passes every set filter and the case-folded file-name search, and then as often as the list holds it |
| AuditUtils.FilterFileLogsUnset | src/utils/auditUtils.js:151-163 | with no filter set every file log is kept |
| AuditUtils.FilterFileLogsIgnoresCase | src/utils/auditUtils.js:158 | lower-casing the search term first changes nothing |
| AuditUtils.Cells | src/utils/auditUtils.js:168-177 | a row has one cell per header |
| AuditUtils.CsvLines | src/utils/auditUtils.js:179-182 | the text has the header line plus one line per log |
| AuditUtils.ExportLines | src/utils/auditUtils.js:166-185 | when no cell holds a line break, splitting the CSV at line breaks gives back the header and each log's row, in order |
| AuditUtils.RowShape | src/utils/auditUtils.js:169-181 | each row starts with the quoted time and ends with the quoted status, which is "Success" exactly for a successful log |
| AuditUtils.FormatAuditLog | src/utils/auditUtils.js:96-117 | the log is kept and the label is the table's for a known action, the action itself otherwise |
| AuditUtils.LabelsNonEmpty | src/utils/auditUtils.js:97-110 | no label is empty, so `\|\| log.action` applies only to unknown actions |
| AuditContext.Reduce | src/contexts/AuditContext.jsx:6-36 | load replaces the logs and ends loading; add prepends one entry; clear empties the list; set-loading changes only the flag; an unknown action changes nothing |
| AuditContext.Persisted | src/contexts/AuditContext.jsx:68 | the saved list is the first `min(n, 1000)` logs, newest first |
| AuditContext.PersistedAfterAdd | src/contexts/AuditContext.jsx:15-19 | after adding an entry the saved list is the entry followed by the old saved list, cut back to 1000 once full (also line 68) |
| AuditContext.Stamped | src/contexts/AuditContext.jsx:75-79 | the generated id and timestamp apply only where the caller's data lacks them; every other field is the caller's |
| AuditContext.AuditProvider.constructor | src/contexts/AuditContext.jsx:39-46 | the provider starts with no logs and loading |
| AuditContext.AuditProvider.LogAudit | src/contexts/AuditContext.jsx:74-81 | the stamped entry, with id `AUDIT-<millis>-<suffix>`, is dispatched as an add and so is now first |
| AuthContext.Reduce | src/contexts/AuthContext.jsx:6-39 | login stores the user, authenticates and ends loading; logout forgets the user; a profile update overlays the patch on the user, even with no user signed in; set-loading changes only the flag |
| AuthContext.LogoutForgets | src/contexts/AuthContext.jsx:8-22 | after login then logout nothing of the user is left |
| AuthContext.ProfileWhileSignedOut | src/contexts/AuthContext.jsx:16-28 | a profile update after logout makes the patch the current user while staying unauthenticated |
| AuthContext.ProfileSameFields | src/contexts/AuthContext.jsx:24-28 | a patch whose fields the user already has changes nothing |
| DataContext.Overlay | src/contexts/DataContext.jsx:27-37 | the key's record becomes the old one overlaid by the patch, every other key unchanged |
| DataContext.KeyOf | src/contexts/DataContext.jsx:23 | the key is the payload's own key field when it has one (also lines 52, 81) |
| DataContext.Reduce | src/contexts/DataContext.jsx:6-113 | load replaces the three directories (empty when missing); each add, update and delete touches one key of its own directory only; set-loading changes only the flag; an unknown action changes nothing |
| DataContext.DeleteUndoesAdd | src/contexts/DataContext.jsx:18-44 | adding a vendor and deleting its id leaves the other vendors, and all of them when the id was new |
| DataContext.AddGrowsByOne | src/contexts/DataContext.jsx:18-25 | adding a new key grows the directory by one |
| DataContext.RemoveShrinksByOne | src/contexts/DataContext.jsx:39-44 | deleting a present key shrinks the directory by one |
| DataContext.OverlaySame | src/contexts/DataContext.jsx:27-37 | overlaying fields the record already has changes nothing |
| ExpenseContext.Approve | src/contexts/ExpenseContext.jsx:42-48 | the copy is approved, carries the approver fields and keeps every other field |
| ExpenseContext.Reject | src/contexts/ExpenseContext.jsx:58-64 | the copy is rejected, carries the rejecter fields and keeps every other field |
| ExpenseContext.WithStatus | src/contexts/ExpenseContext.jsx:114-127 | the selector keeps, in order, exactly the expenses with that status, each as often as the list holds it |
| ExpenseContext.Reduce | src/contexts/ExpenseContext.jsx:6-78 | load replaces the list; add appends; delete drops exactly the id's expenses and keeps every other one as often as it occurs, in order; update, approve and reject keep the length, change only the id's expenses, as overlay, approval or rejection; set-loading changes only the flag |
| ExpenseContext.SelectorCounts | src/contexts/ExpenseContext.jsx:114-127 | pending, approved and rejected together never exceed the expenses |
| ExpenseContext.AddJoinsSelector | src/contexts/ExpenseContext.jsx:15-19 | an added expense with a status is appended to that status's selector (also lines 114-127) |
| ExpenseContext.ApprovalLeavesPending | src/contexts/ExpenseContext.jsx:37-51 | after approval the id is no longer pending and its approved copy is in the approved list (also lines 114-122) |
| ExpenseContext.DeleteLeavesSelectors | src/contexts/ExpenseContext.jsx:31-35 | after delete no selector holds the id, and each holds only what it held before (also lines 114-127) |
| UseExpenses.FirstIndex | src/hooks/useExpenses.js:49 | the index of the first expense with the id, or the length when none has it |
| UseExpenses.FindById | src/hooks/useExpenses.js:49 | nothing is found exactly when no expense has the id; otherwise the first expense with it (also lines 79, 109) |
| UseExpenses.Submitted | src/hooks/useExpenses.js:22-30 | the new expense is pending, carries the submitter and date, keeps an `id` of the data over the generated one, and every other field of the data |
| UseExpenses.ApprovalSkipsWorkflow | src/hooks/useExpenses.js:49-62 | approving a rejected expense succeeds though the workflow table allows no move from rejected |
| UseExpenses.ExpenseHook.constructor | src/hooks/useExpenses.js:5-12 | the hook sees the given expenses, user and ledger |
| UseExpenses.ExpenseHook.StatusList | src/hooks/useExpenses.js:124-126 | each list keeps, in order, exactly the expenses with its status, each as often as the hook's list holds it |
| UseExpenses.ExpenseHook.AddExpense | src/hooks/useExpenses.js:15-39 | without the create permission only a denied entry is logged; otherwise the submitted expense is appended and logged as `expense_created` |
| UseExpenses.ExpenseHook.ApproveExpense | src/hooks/useExpenses.js:42-69 | permission denied is logged; an unknown id changes nothing; otherwise exactly the id's expenses become the approved copy, and the change is logged with the old and new record |
| UseExpenses.ExpenseHook.RejectExpense | src/hooks/useExpenses.js:72-99 | the same under the `approve` permission, with a rejected copy and the verb `reject` in a denied entry |
| UseExpenses.ExpenseHook.DeleteExpense | src/hooks/useExpenses.js:102-121 | permission denied is logged; an unknown id changes nothing; otherwise the list becomes the reducer's filter: exactly the id's expenses are dropped, every other one kept as often as it occurs and in order, and the found one is logged as `before` |
| UseVendors.NewVendor | src/hooks/useVendors.js:31-38 | the vendor keeps an `id` of the data over the generated one, upper-cases the IFSC, records type, source and date, and keeps every other field of the data |
| UseVendors.UpdatedVendor | src/hooks/useVendors.js:70-76 | the data overlays the old vendor, the IFSC is upper-cased, and the modifier and time are recorded |
| UseVendors.OnlyAdminChangesVendors | src/hooks/useVendors.js:16 | no role but admin passes any of the three vendor permission checks (also lines 51, 89) |
| UseVendors.VendorHook.constructor | src/hooks/useVendors.js:5-12 | the hook sees the given vendors, user and ledger |
| UseVendors.VendorHook.AddVendor | src/hooks/useVendors.js:15-47 | success exactly with permission and the four required fields; denial is logged, a missing field changes nothing, success stores the new vendor under the generated key and logs `vendor_created` |
| UseVendors.VendorHook.UpdateVendor | src/hooks/useVendors.js:50-85 | success exactly with permission, the required fields and a known id; otherwise nothing changes beyond a denied entry; success replaces that key only and logs the old and new records |
| UseVendors.VendorHook.DeleteVendor | src/hooks/useVendors.js:88-110 | success exactly with permission and a known id; success removes that key only and logs the removed vendor |
| UseEmployees.NewEmployee | src/hooks/useEmployees.js:37-44 | the employee keeps its id and every other field of the data, upper-cases the IFSC, records type, source and date |
| UseEmployees.UpdatedEmployee | src/hooks/useEmployees.js:76-83 | the data overlays the old record, the id named by the caller is kept, the IFSC is upper-cased, and the modifier and time are recorded |
| UseEmployees.EmployeeHook.constructor | src/hooks/useEmployees.js:4-11 | the hook sees the given employees, user and ledger |
| UseEmployees.EmployeeHook.AddEmployee | src/hooks/useEmployees.js:14-53 | success exactly with permission, the five fields, an id starting with `E` and an id not yet used; each failure has its own message, checked in that order; success adds one key and logs `employee_created` |
| UseEmployees.EmployeeHook.UpdateEmployee | src/hooks/useEmployees.js:56-92 | success exactly with permission, a non-empty id, the four fields and a known id; success replaces that key only and logs the old and new records |
| UseEmployees.EmployeeHook.DeleteEmployee | src/hooks/useEmployees.js:95-118 | success exactly with permission and a known id; success removes that key only and logs the removed record |
| Pagination.PageCount | src/hooks/usePagination.js:13 | at least one page, enough pages to hold every item, and no page beyond the first that would be empty (also line 84) |
| Pagination.SliceIndex | src/hooks/usePagination.js:26 | a slice index, negative ones counted from the end, lands within the list |
| Pagination.PageItems | src/hooks/usePagination.js:23-27 | a page holds at most `itemsPerPage` items, and for a page from 1 on they are the items from `(page-1)*per` to `page*per`, cut at the end |
| Pagination.SliceWindow | src/hooks/usePagination.js:24-26 | a window of width `w` holds at most `w` items, and from a non-negative start the items in it |
| Pagination.PagesUpToPrefix | src/hooks/usePagination.js:23-27 | the first `k` pages one after the other are the first `k * per` items |
| Pagination.PagesCoverItems | src/hooks/usePagination.js:13-27 | all pages one after the other give back every item, in order |
| Pagination.EndIndexCountsShown | src/hooks/usePagination.js:62-63 | on a page in range, `endIndex` is `startIndex` plus the number of items shown |
| Pagination.Pager.constructor | src/hooks/usePagination.js:9-10 | the hook starts on page 1, which is always a page (`Valid`) |
| Pagination.Pager.TotalPages | src/hooks/usePagination.js:13 | the fewest pages that hold every item, and at least one |
| Pagination.Pager.HasNextPage | src/hooks/usePagination.js:60 | on a page from 1 on, there is a next page exactly when items lie past `endIndex` |
| Pagination.Pager.HasPrevPage | src/hooks/usePagination.js:61 | there is a previous page exactly when `startIndex` is past 0 |
| Pagination.Pager.StartIndex | src/hooks/usePagination.js:62 | on a page in range `startIndex` lies inside the list, or is 0 for an empty list |
| Pagination.NextPageIffMore | src/hooks/usePagination.js:13-60 | from page 1 on, page `p` is before the last exactly when `p * itemsPerPage` is short of the list's length |
| Pagination.StartInside | src/hooks/usePagination.js:13-62 | a page in `1..totalPages` starts inside the list, or at 0 when the list is empty |
| Pagination.Pager.PaginatedItems | src/hooks/usePagination.js:23-27 | the current page holds at most `itemsPerPage` items |
| Pagination.Pager.EndIndex | src/hooks/usePagination.js:63 | `endIndex` never passes the list and is not before `startIndex` unless it is the list's end |
| Pagination.Pager.SetItems | src/hooks/usePagination.js:15-20 | new items keep the page unless it is now past the last page, which sends it to page 1; from any page 1 or later the page is in range afterwards |
| Pagination.Pager.GoToPage | src/hooks/usePagination.js:30-33 | the page becomes the request clamped into `1..totalPages`, an in-range request exactly, so it is always in range |
| Pagination.Pager.NextPage | src/hooks/usePagination.js:35-37 | exactly `goToPage(currentPage + 1)`: one page on, staying on the last page, and from an out-of-range page the clamp of the page after it; the page stays in range |
| Pagination.Pager.PrevPage | src/hooks/usePagination.js:39-41 | exactly `goToPage(currentPage - 1)`: one page back, staying on the first page, and from an out-of-range page the clamp of the page before it; the page stays in range |
| Pagination.Pager.GoToFirstPage | src/hooks/usePagination.js:43-45 | the page becomes 1, which is in range |
| Pagination.Pager.GoToLastPage | src/hooks/usePagination.js:47-49 | the page becomes the last, which is in range, and there is no next page |
| Pagination.Pager.SetCurrentPage | src/hooks/usePagination.js:16-20 | the raw setter (line 71) followed by the reset memo: a page past the last becomes page 1, any other page is kept, so the page is in range afterwards exactly when the request was at least 1 |
| Pagination.ServerPager.constructor | src/hooks/usePagination.js:81-84 | the hook starts on page 1, which is always a page (`Valid`) |
| Pagination.ServerPager.TotalPages | src/hooks/usePagination.js:84 | the fewest pages that hold `totalItems` items, and at least one |
| Pagination.ServerPager.HasNextPage | src/hooks/usePagination.js:96 | from page 1 on, there is a next page exactly when the server holds items past the current page |
| Pagination.ServerPager.HasPrevPage | src/hooks/usePagination.js:97 | there is a previous page exactly when items lie before the current page |
| Pagination.ServerPager.SetTotalItems | src/hooks/usePagination.js:81-84 | a new `totalItems` prop recomputes the page count and keeps the page; the page stays in range exactly when it is still a page, and a page left past the end has no next page but a previous one |
| Pagination.ServerPager.GoToPage | src/hooks/usePagination.js:86-89 | the page becomes the request clamped into `1..totalPages`, an in-range request exactly, so it is always in range |
| Pagination.ServerPager.NextPage | src/hooks/usePagination.js:99 | exactly `goToPage(currentPage + 1)`, and the page is in range afterwards |
| Pagination.ServerPager.PrevPage | src/hooks/usePagination.js:100 | exactly `goToPage(currentPage - 1)`; from a page left past the end by a shrinking total it becomes the last page |
| Paginator.Range | src/components/common/Paginator.jsx:25-47 | the buttons `lo..hi`, one per page, in order |
| Paginator.PushRange | src/components/common/Paginator.jsx:25-47 | the push loop appends exactly the buttons `lo..hi` |
| Paginator.GetPageNumbers | src/components/common/Paginator.jsx:19-57 | the pushes build exactly the list `PageNumbers` describes |
| Paginator.PageNumbersCases | src/components/common/Paginator.jsx:28-54 | the spec functions `WindowStart` and `WindowEnd` (lines 32-39) through `PageNumbers`: with more than five pages the list is `1 2 3 4 … n` near the start, `1 … n-3 n-2 n-1 n` near the end, and `1 … c-1 c c+1 … n` in between |
| Paginator.PageNumbers | src/components/common/Paginator.jsx:19-57 | at most seven entries; with at least one page the list starts at page 1 and ends at the last page |
| Paginator.FewPages | src/components/common/Paginator.jsx:23-27 | with two to five pages every page is listed, in order |
| Paginator.NearStart | src/components/common/Paginator.jsx:35-36 | the near-start list is well formed |
| Paginator.NearEnd | src/components/common/Paginator.jsx:37-38 | the near-end list is well formed |
| Paginator.InMiddle | src/components/common/Paginator.jsx:32-33 | the middle list is well formed |
| Paginator.ManyPages | src/components/common/Paginator.jsx:28-54 | the list starts at 1 and ends at the last page, increases, holds at most seven entries, shows the current page when it is in range, and has a gap exactly where pages are left out |
| Paginator.EndItem | src/components/common/Paginator.jsx:16 | the last item shown never passes the total |
| Paginator.ItemBoundsSpanPage | src/components/common/Paginator.jsx:15-16 | the spec functions `StartItem` and `EndItem`: on a page that starts inside the list the "showing x to y" bounds span exactly the items the pagination hook shows |
| Paginator.Render | src/components/common/Paginator.jsx:13-59 | nothing is rendered exactly when there is at most one page; otherwise the bounds and the page list |
| ErrorDisplay.MessageOf | src/components/ErrorDisplay.jsx:43 | a string error is itself; an object's text is its truthy `message`, else its truthy `error`, else `''` |
| ErrorDisplay.Precedence | src/components/ErrorDisplay.jsx:45-53 | an error is validation exactly when it mentions a validation word, warning exactly when it mentions a warning word and no validation word, critical when it mentions only critical words, info when it mentions none |
| ErrorDisplay.LowerAround | src/components/ErrorDisplay.jsx:43-45 | after lower-casing, a string still contains its lower-cased part |
| ErrorDisplay.AnyCaseValidation | src/components/ErrorDisplay.jsx:43-46 | a text around a validation word in any letter case is classed validation |
| ErrorDisplay.InBucket | src/components/ErrorDisplay.jsx:42-54 | a bucket keeps, in order, exactly the errors of its kind, each as often as the list holds it |
| ErrorDisplay.BucketSizes | src/components/ErrorDisplay.jsx:42-54 | the four buckets together hold every error exactly once |
| ErrorDisplay.BucketsFilter | src/components/ErrorDisplay.jsx:42-54 | filling the buckets one error at a time leaves in each bucket exactly the errors of its kind, in list order |
| ErrorDisplay.Place | src/components/ErrorDisplay.jsx:43-53 | the if-chain pushes the error onto the bucket its kind names |
| ErrorDisplay.Categorize | src/components/ErrorDisplay.jsx:35-54 | the `forEach` fills the four buckets as the specification `Buckets` |
| ErrorDisplay.Shown | src/components/ErrorDisplay.jsx:11-21 | a string shows as itself; an object as its `message`, else its `error`, else its JSON text |
| ErrorDisplay.Lines | src/components/ErrorDisplay.jsx:10-21 | one numbered line per error, numbered from 1 |
| ErrorDisplay.ErrorTextLines | src/components/ErrorDisplay.jsx:10-22 | when no shown text has a line break, the copied text splits back into one numbered line per error |
| ErrorDisplay.Render | src/components/ErrorDisplay.jsx:5-6 | nothing is rendered exactly for a missing or empty list; otherwise the buckets of the list (also lines 35-54) |
| Js.Filter | src/hooks/useExpenses.js:124-126 | `Array.prototype.filter`: exactly the passing elements, each as often as in the input, in their order |
| Js.FilterThen | src/utils/enterpriseUtils.js:131-168 | two filters one after the other are one filter by both conditions |
| Js.Lower | src/utils/fuzzyMatching.js:35 | `toLowerCase` keeps the length and maps each character |
| Js.LowerIdempotent | src/utils/enterpriseUtils.js:136-140 | lower-casing twice is lower-casing once |
| Js.TrimNoSpaceEnds | src/utils/exportUtils.js:174-175 | `trim` leaves no white space at either end |
| Js.TrimIsSlice | src/utils/exportUtils.js:174-175 | `trim` keeps one contiguous slice of its input |
| Js.Split | src/utils/exportUtils.js:174-184 | `split` on one character gives at least one part, none containing it |
| Js.SplitJoin | src/utils/exportUtils.js:174 | joining parts without the separator and splitting again gives the parts back |
| Js.JoinSplit | src/utils/exportUtils.js:174 | splitting and joining with the same character gives the text back |
| Js.ContainsIff | src/utils/enterpriseUtils.js:107-110 | `includes` holds exactly when the part occurs at some position |
| Js.NatToStringValue | src/components/ErrorDisplay.jsx:11 | the decimal text of a number reads back as that number |
| Js.PadStart | src/utils/validation.js:136 | `padStart` reaches the width with the fill on the left and the text at the end |
| Js.ParseDigits | src/utils/validation.js:10 | `parseFloat` of a plain digit string is its integer value |
| Js.ParseNoDigits | src/utils/validation.js:10 | `parseFloat` of a text with no digit is `NaN` (also line 84) |

## Left out

- Floating point: amounts, scores and confidences are exact rationals, so rounding in `Math.abs(a - b) < 0.01`, `1 - d/len` or `* 0.95` is not modelled.
- `parseFloat` is modelled as the decimal-prefix reader it is (sign, digits, fraction, exponent); `Infinity`, hexadecimal and other literal forms are not.
- `toLowerCase` and `toUpperCase` are modelled on ASCII letters only; other Unicode case mappings are left out.
- Regular expressions (`validateIFSC`, `validateDate`, `normalize`'s `[^a-z0-9]`) are written as character predicates with the same accepted language.
- The clock, `Date.now()`, `Math.random()` and `generateId` are parameters (`Moment`, ids, suffixes). One `Moment` serves both the record and its ledger entry, where the source reads the clock twice.
- `new Date(...)` comparisons in the date filters use integer timestamps; date-string parsing is not modelled.
- `toLocaleString`, `getTimeAgo`, `formatRelativeTime` and `formatDate` depend on the locale and clock. `toLocaleString` is a parameter of the audit CSV export; the others are left out.
- `JSON.stringify` of an error object is a parameter of the error text.
- The "today" fallback of `parseDateToISO` is a parameter.
- `navigator.userAgent` in `logAudit` is a browser call; the entry's `userAgent` is not modelled.
- I/O is not modelled: `downloadCSV`, Blob/URL handling, the clipboard, `alert` (also the one in `requirePermission`), and the `localStorage` load and save effects of the providers. Only the 1000-entry save slice is modelled.
- These are left out as display or I/O: `logFileOperation`, `createFileLog`, `exportAuditLogs` in src/utils/enterpriseUtils.js:171-189, `exportFileLogToCSV`, `ROLE_NAMES`, the label, colour and icon tables, `formatFileSize`, and the template and master-data download builders.
- Concurrency and React scheduling are not modelled. Stale closures over `expenses` or `auditLogs` between renders are outside the model: each hook call sees the state the previous call left.
- src/contexts/AppContext is not part of this model. The hooks' shared state is the class fields and the shared `AuditTrail` object.
- JavaScript values are text: an object field is a `string` or absent, an explicit `undefined` property reads as an absent key, and `null` is `None` where the source distinguishes it.
- Prototype keys such as `toString` are not modelled. A directory lookup `map[key]` reads only the map's own keys.
- The hooks assume a signed-in user. With `currentUser` null, the source throws when it reads `currentUser.username`.
- EnterpriseUtils.CalculateChanges: states the set of changed keys and each entry exactly, but not their order. The source orders them by `Set` insertion: the keys of `before`, then the new keys of `after`.
- AuditUtils.CreateAuditLog: states the changed keys and entries exactly but not their order, which follows `Object.keys(after)`.
- EnterpriseUtils.SearchAuditLogs: requires every log to have a `userName` when a search term is given, because the source throws on `undefined.toLowerCase()` there.
- EnterpriseUtils.SearchFiles: requires readable file and uploader names when a term is given, for the same reason.
- CsvValidator.ValidateRowData: requires a known template, because the source throws reading `template.required` of `undefined`.
- CsvValidator.GenerateErrorReport: requires a validation that carries a template. The unknown-template result has none, and the report reads `validation.template.example`.
- UseVendors.NewVendor, UseVendors.UpdatedVendor, UseEmployees.NewEmployee and UseEmployees.UpdatedEmployee: require the `ifsc` (and `empId`) fields. Every caller has already checked those fields are non-empty.
- ExportUtils.DateStampValue: requires a four-digit year and a month and day below 100. `GenerateJournalNumber` itself takes any date; only this lemma about the stamp's digits assumes the range, which holds for every date `getFullYear` and friends return in practice.
- ExportUtils.JournalNumberLayout: requires the same date range as `DateStampValue`, for the same reason; outside it the number is still built, but its layout is not stated.
- Text lengths and indices count Unicode scalar values, where JavaScript counts UTF-16 code units. Outside the Basic Multilingual Plane the two differ, so for such text the model does not capture: `str.length`, the table size and the distance in FuzzyMatching.LevenshteinDistance; the longer length in CsvValidator.CalculateSimilarity (src/utils/csvValidator.js:128-136); the substring score `shorter / longer * 0.95` of `findBestMatch`; the padding width of `padStart` (`Js.PadStart`); and the `line[i]` loop of ExportUtils.SplitQuoted (src/utils/exportUtils.js:192-208).
- Default arguments are ordinary parameters that every caller passes: `threshold = 0.6` of `findBestMatch` and `matchBatch` (src/utils/fuzzyMatching.js:39, :85); `itemsPerPage = 50` of both pagination hooks (src/hooks/usePagination.js:9, :81); `before`, `after` and `metadata` of `createAuditLog` (src/utils/auditUtils.js:4); `success = true` and `errorMessage = null` of `logAudit` (src/utils/enterpriseUtils.js:79); `showAlert = true` of `requirePermission` (src/utils/enterpriseUtils.js:238); `notes = ''` of `createApprovalRecord` (src/utils/approvalWorkflow.js:77).
- A changed `itemsPerPage` prop is not modelled: both pagination classes fix it at construction, while `items` (`Pagination.Pager.SetItems`) and `totalItems` (`Pagination.ServerPager.SetTotalItems`) can change.
- The `Pagination.PageSize` type excludes `itemsPerPage = 0`. There the source's `Math.ceil(n / 0)` is `Infinity` (or `NaN` for an empty list), so `totalPages` is not a number of pages; the model does not capture that case.
- EnterpriseUtils.HasPermission: carries no contract of its own; its behaviour is stated by `EnterpriseUtils.HasPermissionSpec`. The hooks' permission checks call it, and a contract on it makes their proofs too costly.

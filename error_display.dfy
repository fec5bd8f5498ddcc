/** The non-visual part of `ErrorDisplay` (src/components/ErrorDisplay.jsx):
    sorting a list of errors into four buckets by the words in their
    message, and the numbered text copied or downloaded from the dialog. */
module ErrorDisplay {
  import opened Js

  /** An error is either a plain string or an object such as `{message}` or `{error}`. */
  datatype ErrorItem = Text(text: string) | Obj(fields: Record)

  datatype Bucket = Critical | Validation | Warning | Info

  /** The text an error is classified by: a string itself, otherwise
      `err.message || err.error || ''`. */
  function MessageOf(e: ErrorItem): (m: string)
    ensures e.Text? ==> m == e.text
    ensures e.Obj? && Truthy(e.fields, "message") ==> m == e.fields["message"]
    ensures e.Obj? && !Truthy(e.fields, "message") && Truthy(e.fields, "error") ==> m == e.fields["error"]
    ensures e.Obj? && !Truthy(e.fields, "message") && !Truthy(e.fields, "error") ==> m == ""
  {
    match e
    case Text(s) => s
    case Obj(f) => FieldOr(f, "message", FieldOr(f, "error", ""))
  }

  const ValidationWords: seq<string> := ["missing", "required", "invalid"]
  const WarningWords: seq<string> := ["warning", "duplicate", "possible"]
  const CriticalWords: seq<string> := ["error", "failed", "cannot"]

  /** The `if` chain of the `forEach`, on an already lowercased message. */
  function Classify(s: string): Bucket
  {
    if Contains(s, "missing") || Contains(s, "required") || Contains(s, "invalid") then Validation
    else if Contains(s, "warning") || Contains(s, "duplicate") || Contains(s, "possible") then Warning
    else if Contains(s, "error") || Contains(s, "failed") || Contains(s, "cannot") then Critical
    else Info
  }

  /** Some word of `words` occurs in `s`. */
  predicate Mentions(s: string, words: seq<string>)
  {
    exists i :: 0 <= i < |words| && Contains(s, words[i])
  }

  /** The buckets in priority order: a validation word beats everything,
      then a warning word, then a critical word; a message with none of the
      nine words is information. */
  lemma Precedence(s: string)
    ensures Classify(s) == Validation <==> Mentions(s, ValidationWords)
    ensures Classify(s) == Warning <==> !Mentions(s, ValidationWords) && Mentions(s, WarningWords)
    ensures Classify(s) == Critical <==>
              !Mentions(s, ValidationWords) && !Mentions(s, WarningWords) && Mentions(s, CriticalWords)
    ensures Classify(s) == Info <==>
              !Mentions(s, ValidationWords) && !Mentions(s, WarningWords) && !Mentions(s, CriticalWords)
  {
    assert Mentions(s, ValidationWords) <==>
             Contains(s, ValidationWords[0]) || Contains(s, ValidationWords[1]) || Contains(s, ValidationWords[2]);
    assert Mentions(s, WarningWords) <==>
             Contains(s, WarningWords[0]) || Contains(s, WarningWords[1]) || Contains(s, WarningWords[2]);
    assert Mentions(s, CriticalWords) <==>
             Contains(s, CriticalWords[0]) || Contains(s, CriticalWords[1]) || Contains(s, CriticalWords[2]);
  }

  /** The bucket of one error: the message is lowercased before matching. */
  function KindOf(e: ErrorItem): Bucket
  {
    Classify(Lower(MessageOf(e)))
  }

  /** Lowercasing the text around a word lowercases the word in place. */
  lemma {:induction false} LowerAround(a: string, w: string, b: string)
    ensures Contains(Lower(a + w + b), Lower(w))
  {
    var t := Lower(a + w + b);
    assert t[|a|..|a| + |w|] == Lower(w);
    assert OccursAt(t, Lower(w), |a|);
    ContainsIff(t, Lower(w));
  }

  /** Matching ignores case: a string error holding a validation word in
      any mix of cases, with whatever text around it, is a validation error. */
  lemma AnyCaseValidation(a: string, w: string, b: string)
    requires Lower(w) in ValidationWords
    ensures KindOf(Text(a + w + b)) == Validation
  {
    LowerAround(a, w, b);
    Precedence(Lower(a + w + b));
    var i :| 0 <= i < |ValidationWords| && ValidationWords[i] == Lower(w);
  }

  /** The errors of one bucket, in the order they came. */
  function InBucket(errors: seq<ErrorItem>, b: Bucket): (r: seq<ErrorItem>)
    ensures IsSubsequence(r, errors)
    ensures forall e :: e in r <==> e in errors && KindOf(e) == b
    ensures forall e :: multiset(r)[e] == if KindOf(e) == b then multiset(errors)[e] else 0
  {
    Filter(errors, e => KindOf(e) == b)
  }

  lemma InBucketStep(xs: seq<ErrorItem>, x: ErrorItem, b: Bucket)
    ensures InBucket(xs + [x], b) == InBucket(xs, b) + (if KindOf(x) == b then [x] else [])
  {
    assert (xs + [x])[..|xs|] == xs;
  }

  /** Every error lands in exactly one bucket, so the four sizes add up to the
      number of errors. */
  lemma {:induction false} BucketSizes(errors: seq<ErrorItem>)
    ensures |InBucket(errors, Critical)| + |InBucket(errors, Validation)| + |InBucket(errors, Warning)|
            + |InBucket(errors, Info)| == |errors|
    decreases |errors|
  {
    if |errors| > 0 {
      var xs := errors[..|errors| - 1];
      var x := errors[|errors| - 1];
      assert errors == xs + [x];
      BucketSizes(xs);
      InBucketStep(xs, x, Critical);
      InBucketStep(xs, x, Validation);
      InBucketStep(xs, x, Warning);
      InBucketStep(xs, x, Info);
    }
  }

  /** The `categorizedErrors` object. */
  datatype Categorized = Categorized(critical: seq<ErrorItem>, validation: seq<ErrorItem>,
                                     warning: seq<ErrorItem>, info: seq<ErrorItem>)

  /** `c` with `x` appended to bucket `b`. */
  function Push(c: Categorized, b: Bucket, x: ErrorItem): Categorized
  {
    match b
    case Critical => c.(critical := c.critical + [x])
    case Validation => c.(validation := c.validation + [x])
    case Warning => c.(warning := c.warning + [x])
    case Info => c.(info := c.info + [x])
  }

  /** The buckets of a whole list, filled one error at a time from the left. */
  function Buckets(errors: seq<ErrorItem>): Categorized
    decreases |errors|
  {
    if |errors| == 0 then Categorized([], [], [], [])
    else
      var last := errors[|errors| - 1];
      Push(Buckets(errors[..|errors| - 1]), KindOf(last), last)
  }

  /** Each bucket of the filled object is the filter of the list by its kind. */
  lemma {:induction false} BucketsFilter(errors: seq<ErrorItem>)
    ensures Buckets(errors) == Categorized(InBucket(errors, Critical), InBucket(errors, Validation),
                                           InBucket(errors, Warning), InBucket(errors, Info))
    decreases |errors|
  {
    if |errors| > 0 {
      BucketsFilter(errors[..|errors| - 1]);
      PushFiltered(errors);
    }
  }

  /** Pushing the last error onto the filtered buckets of the rest of a list
      gives the filtered buckets of the whole list. */
  lemma PushFiltered(errors: seq<ErrorItem>)
    requires |errors| > 0
    ensures var xs, x := errors[..|errors| - 1], errors[|errors| - 1];
            Push(Categorized(InBucket(xs, Critical), InBucket(xs, Validation), InBucket(xs, Warning), InBucket(xs, Info)),
                 KindOf(x), x)
            == Categorized(InBucket(errors, Critical), InBucket(errors, Validation),
                           InBucket(errors, Warning), InBucket(errors, Info))
  {
    var xs, x := errors[..|errors| - 1], errors[|errors| - 1];
    assert errors == xs + [x];
    InBucketStep(xs, x, Critical);
    InBucketStep(xs, x, Validation);
    InBucketStep(xs, x, Warning);
    InBucketStep(xs, x, Info);
  }

  /** The body of the `forEach`: one error pushed onto the bucket its
      lowercased message picks. */
  method Place(c: Categorized, err: ErrorItem) returns (d: Categorized)
    ensures d == Push(c, KindOf(err), err)
  {
    var errStr := Lower(MessageOf(err));
    d := c;
    if Contains(errStr, "missing") || Contains(errStr, "required") || Contains(errStr, "invalid") {
      d := d.(validation := d.validation + [err]);
    } else if Contains(errStr, "warning") || Contains(errStr, "duplicate") || Contains(errStr, "possible") {
      d := d.(warning := d.warning + [err]);
    } else if Contains(errStr, "error") || Contains(errStr, "failed") || Contains(errStr, "cannot") {
      d := d.(critical := d.critical + [err]);
    } else {
      d := d.(info := d.info + [err]);
    }
  }

  /** `errors.forEach(...)` over the four empty arrays of `categorizedErrors`. */
  method Categorize(errors: seq<ErrorItem>) returns (c: Categorized)
    ensures c == Buckets(errors)
  {
    c := Categorized([], [], [], []);
    var i := 0;
    while i < |errors|
      invariant 0 <= i <= |errors|
      invariant c == Buckets(errors[..i])
    {
      assert errors[..i + 1][..i] == errors[..i];
      c := Place(c, errors[i]);
      i := i + 1;
    }
    assert errors[..|errors|] == errors;
  }

  /** The text shown and copied for one error: `err.message || err.error ||
      JSON.stringify(err)`, where `stringify` stands for `JSON.stringify`. */
  function Shown(e: ErrorItem, stringify: Record -> string): (m: string)
    ensures e.Text? ==> m == e.text
    ensures e.Obj? && MessageOf(e) != "" ==> m == MessageOf(e)
    ensures e.Obj? && MessageOf(e) == "" ==> m == stringify(e.fields)
  {
    match e
    case Text(s) => s
    case Obj(f) => FieldOr(f, "message", FieldOr(f, "error", stringify(f)))
  }

  /** `${idx + 1}. ${...}` */
  function Line(n: nat, e: ErrorItem, stringify: Record -> string): string
  {
    NatToString(n) + ". " + Shown(e, stringify)
  }

  function Lines(errors: seq<ErrorItem>, stringify: Record -> string): (ls: seq<string>)
    ensures |ls| == |errors|
    ensures forall i :: 0 <= i < |errors| ==> ls[i] == Line(i + 1, errors[i], stringify)
  {
    seq(|errors|, i requires 0 <= i < |errors| => Line(i + 1, errors[i], stringify))
  }

  /** `errorText`, the same for copying and for the download. */
  function ErrorText(errors: seq<ErrorItem>, stringify: Record -> string): string
  {
    Join(Lines(errors, stringify), "\n")
  }

  /** When no error text spans several lines, the copied text splits back into
      one line per error, in order, the `i`-th reading `i. ` and its text. */
  lemma ErrorTextLines(errors: seq<ErrorItem>, stringify: Record -> string)
    requires |errors| > 0
    requires forall i :: 0 <= i < |errors| ==> '\n' !in Shown(errors[i], stringify)
    ensures |Split(ErrorText(errors, stringify), '\n')| == |errors|
    ensures forall i :: 0 <= i < |errors| ==>
              Split(ErrorText(errors, stringify), '\n')[i] == NatToString(i + 1) + ". " + Shown(errors[i], stringify)
  {
    var ls := Lines(errors, stringify);
    forall i | 0 <= i < |ls|
      ensures '\n' !in ls[i]
    {
      var d := NatToString(i + 1);
      assert '\n' !in d;
      assert '\n' !in ". ";
      assert ls[i] == d + ". " + Shown(errors[i], stringify);
    }
    SplitJoin(ls, '\n');
  }

  /** The component renders nothing for a missing or empty list, and otherwise
      a report of the count and the four buckets. */
  method Render(errors: Option<seq<ErrorItem>>) returns (view: Option<Categorized>)
    ensures view.None? <==> errors.None? || |errors.value| == 0
    ensures view.Some? ==> view.value == Buckets(errors.value)
  {
    if errors.None? || |errors.value| == 0 {
      return None;
    }
    var c := Categorize(errors.value);
    view := Some(c);
  }
}

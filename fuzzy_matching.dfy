/** Payee-name reconciliation: edit distance, name normalisation, the
    three-rule best-match search over a master directory, and the confidence
    bands shown to the user (src/utils/fuzzyMatching.js). */
module FuzzyMatching {
  import opened Js

  function Min3(a: nat, b: nat, c: nat): (m: nat)
    ensures m <= a && m <= b && m <= c
    ensures m == a || m == b || m == c
  {
    if a <= b && a <= c then a else if b <= c then b else c
  }

  function Max(a: nat, b: nat): nat
  {
    if a >= b then a else b
  }

  /** Classic edit distance with unit-cost insertion, deletion and
      substitution: the value the distance table holds in the cell for the
      prefixes `s` (columns) and `t` (rows). */
  function Lev(s: string, t: string): nat
    decreases |s| + |t|
  {
    if |s| == 0 then |t|
    else if |t| == 0 then |s|
    else if s[|s| - 1] == t[|t| - 1] then Lev(s[..|s| - 1], t[..|t| - 1])
    else 1 + Min3(Lev(s[..|s| - 1], t[..|t| - 1]), Lev(s[..|s| - 1], t), Lev(s, t[..|t| - 1]))
  }

  /** One cell of the table in terms of its three neighbours. */
  lemma LevCell(str1: string, str2: string, i: nat, j: nat)
    requires 1 <= i <= |str2| && 1 <= j <= |str1|
    ensures Lev(str1[..j], str2[..i]) ==
      if str2[i - 1] == str1[j - 1] then Lev(str1[..j - 1], str2[..i - 1])
      else 1 + Min3(Lev(str1[..j - 1], str2[..i - 1]), Lev(str1[..j - 1], str2[..i]), Lev(str1[..j], str2[..i - 1]))
  {
    assert str1[..j][..j - 1] == str1[..j - 1];
    assert str2[..i][..i - 1] == str2[..i - 1];
  }

  /** The inner loop of `levenshteinDistance`: fills row `i` of the table
      from the row above it. */
  method FillRow(matrix: array2<nat>, str1: string, str2: string, i: nat)
    requires matrix.Length0 == |str2| + 1 && matrix.Length1 == |str1| + 1
    requires 1 <= i <= |str2|
    requires forall l :: 0 <= l <= |str1| ==> matrix[i - 1, l] == Lev(str1[..l], str2[..i - 1])
    requires matrix[i, 0] == i
    modifies matrix
    ensures forall l :: 0 <= l <= |str1| ==> matrix[i, l] == Lev(str1[..l], str2[..i])
    ensures forall k, l :: 0 <= k <= |str2| && k != i && 0 <= l <= |str1| ==> matrix[k, l] == old(matrix[k, l])
  {
    assert str1[..0] == [];
    for j := 1 to |str1| + 1
      invariant forall l :: 0 <= l < j ==> matrix[i, l] == Lev(str1[..l], str2[..i])
      invariant forall k, l :: 0 <= k <= |str2| && k != i && 0 <= l <= |str1| ==> matrix[k, l] == old(matrix[k, l])
    {
      LevCell(str1, str2, i, j);
      if str2[i - 1] == str1[j - 1] {
        matrix[i, j] := matrix[i - 1, j - 1];
      } else {
        matrix[i, j] := Min3(matrix[i - 1, j - 1] + 1, matrix[i, j - 1] + 1, matrix[i - 1, j] + 1);
      }
    }
  }

  /** `levenshteinDistance(str1, str2)`: fills the (|str2|+1) x (|str1|+1)
      table row by row and returns its last cell. The identical copy in
      src/utils/csvValidator.js:138-164 is this same method. */
  method LevenshteinDistance(str1: string, str2: string) returns (d: nat)
    ensures d == Lev(str1, str2)
  {
    var n1, n2 := |str1|, |str2|;
    var matrix := new nat[n2 + 1, n1 + 1];
    for i := 0 to n2 + 1
      invariant forall k :: 0 <= k < i ==> matrix[k, 0] == k
    {
      matrix[i, 0] := i;
    }
    for j := 0 to n1 + 1
      invariant forall k :: 0 <= k <= n2 ==> matrix[k, 0] == k
      invariant forall l :: 0 <= l < j ==> matrix[0, l] == l
    {
      matrix[0, j] := j;
    }
    assert str2[..0] == [];
    for i := 1 to n2 + 1
      invariant forall l :: 0 <= l <= n1 ==> matrix[i - 1, l] == Lev(str1[..l], str2[..i - 1])
      invariant forall k :: i <= k <= n2 ==> matrix[k, 0] == k
    {
      FillRow(matrix, str1, str2, i);
    }
    d := matrix[n2, n1];
    assert str1[..n1] == str1 && str2[..n2] == str2;
  }

  // ------------------------------------------------ properties of the distance

  /** A string is at distance 0 from itself. */
  lemma {:induction false} LevSelf(s: string)
    ensures Lev(s, s) == 0
    decreases |s|
  {
    if |s| > 0 {
      LevSelf(s[..|s| - 1]);
    }
  }

  /** From the empty string the distance is the other length, both ways round. */
  lemma LevEmpty(t: string)
    ensures Lev("", t) == |t| && Lev(t, "") == |t|
  {
  }

  /** The distance never exceeds the longer of the two lengths. */
  lemma {:induction false} LevAtMostLonger(s: string, t: string)
    ensures Lev(s, t) <= Max(|s|, |t|)
    decreases |s| + |t|
  {
    if |s| > 0 && |t| > 0 {
      LevAtMostLonger(s[..|s| - 1], t[..|t| - 1]);
    }
  }

  /** The distance is at least the difference of the lengths. */
  lemma {:induction false} LevAtLeastLengthGap(s: string, t: string)
    ensures Lev(s, t) >= |s| - |t| && Lev(s, t) >= |t| - |s|
    decreases |s| + |t|
  {
    if |s| > 0 && |t| > 0 {
      LevAtLeastLengthGap(s[..|s| - 1], t[..|t| - 1]);
      LevAtLeastLengthGap(s[..|s| - 1], t);
      LevAtLeastLengthGap(s, t[..|t| - 1]);
    }
  }

  /** The distance is symmetric. */
  lemma {:induction false} LevSymmetric(s: string, t: string)
    ensures Lev(s, t) == Lev(t, s)
    decreases |s| + |t|
  {
    if |s| > 0 && |t| > 0 {
      LevSymmetric(s[..|s| - 1], t[..|t| - 1]);
      LevSymmetric(s[..|s| - 1], t);
      LevSymmetric(s, t[..|t| - 1]);
    }
  }

  /** Distance 0 means the strings are equal. */
  lemma {:induction false} LevZeroIff(s: string, t: string)
    ensures Lev(s, t) == 0 <==> s == t
    decreases |s| + |t|
  {
    if |s| > 0 && |t| > 0 && s[|s| - 1] == t[|t| - 1] {
      LevZeroIff(s[..|s| - 1], t[..|t| - 1]);
      assert s == s[..|s| - 1] + [s[|s| - 1]] && t == t[..|t| - 1] + [t[|t| - 1]];
    }
  }

  // ------------------------------------------------------------ normalisation

  predicate IsLowerAlnum(c: char)
  {
    ('a' <= c <= 'z') || ('0' <= c <= '9')
  }

  /** `str.replace(/[^a-z0-9]/g, '')` */
  function KeepLowerAlnum(s: string): (r: string)
    ensures |r| <= |s|
    ensures forall i :: 0 <= i < |r| ==> IsLowerAlnum(r[i])
    decreases |s|
  {
    if |s| == 0 then ""
    else if IsLowerAlnum(s[0]) then [s[0]] + KeepLowerAlnum(s[1..])
    else KeepLowerAlnum(s[1..])
  }

  lemma {:induction false} KeepLowerAlnumAppend(a: string, b: string)
    ensures KeepLowerAlnum(a + b) == KeepLowerAlnum(a) + KeepLowerAlnum(b)
    decreases |a|
  {
    if |a| == 0 {
      assert a + b == b;
    } else {
      assert (a + b)[1..] == a[1..] + b;
      KeepLowerAlnumAppend(a[1..], b);
    }
  }

  /** Keeping `[a-z0-9]` drops every space. */
  lemma {:induction false} KeepLowerAlnumSpaces(s: string)
    requires forall i :: 0 <= i < |s| ==> IsJsSpace(s[i])
    ensures KeepLowerAlnum(s) == ""
    decreases |s|
  {
    if |s| > 0 {
      KeepLowerAlnumSpaces(s[1..]);
    }
  }

  /** `normalize(str)` computed in one pass: every character lower-cased and
      kept only when it is then in `[a-z0-9]`. `NormalizeIsPipeline` shows
      this is the source's lower-case, trim and filter pipeline. */
  function Normalize(str: string): (r: string)
    ensures |r| <= |str|
    ensures forall i :: 0 <= i < |r| ==> IsLowerAlnum(r[i])
    decreases |str|
  {
    if |str| == 0 then ""
    else (if IsLowerAlnum(LowerChar(str[0])) then [LowerChar(str[0])] else []) + Normalize(str[1..])
  }

  /** `normalize(str)` as written: `''` for a falsy input, else
      `str.toLowerCase().trim().replace(/[^a-z0-9]/g, '')`. */
  function NormalizePipeline(str: string): string
  {
    if str == "" then "" else KeepLowerAlnum(Trim(Lower(str)))
  }

  lemma {:induction false} NormalizeKeepsLower(s: string)
    ensures Normalize(s) == KeepLowerAlnum(Lower(s))
    decreases |s|
  {
    if |s| > 0 {
      assert Lower(s)[1..] == Lower(s[1..]);
      NormalizeKeepsLower(s[1..]);
    }
  }

  lemma KeepLowerAlnumTrimStart(l: string)
    ensures KeepLowerAlnum(TrimStart(l)) == KeepLowerAlnum(l)
  {
    var a := TrimStart(l);
    var k := |l| - |a|;
    TrimStartSuffix(l);
    assert l == l[..k] + a;
    assert KeepLowerAlnum(l[..k]) == "" by {
      TrimStartSpaces(l);
      KeepLowerAlnumSpaces(l[..k]);
    }
    KeepLowerAlnumAppend(l[..k], a);
  }

  lemma KeepLowerAlnumTrimEnd(a: string)
    ensures KeepLowerAlnum(TrimEnd(a)) == KeepLowerAlnum(a)
  {
    var b := TrimEnd(a);
    TrimEndPrefix(a);
    assert a == b + a[|b|..];
    assert KeepLowerAlnum(a[|b|..]) == "" by {
      TrimEndSpaces(a);
      KeepLowerAlnumSpaces(a[|b|..]);
    }
    KeepLowerAlnumAppend(b, a[|b|..]);
  }

  /** Trimming before the filter changes nothing: the filter drops the
      spaces anyway. */
  lemma KeepLowerAlnumTrim(l: string)
    ensures KeepLowerAlnum(Trim(l)) == KeepLowerAlnum(l)
  {
    KeepLowerAlnumTrimStart(l);
    KeepLowerAlnumTrimEnd(TrimStart(l));
  }

  /** The one-pass definition agrees with the pipeline on every input. */
  lemma NormalizeIsPipeline(str: string)
    ensures Normalize(str) == NormalizePipeline(str)
  {
    if str != "" {
      NormalizeKeepsLower(str);
      KeepLowerAlnumTrim(Lower(str));
    }
  }

  /** A word whose lower-cased characters are all in `[a-z0-9]`
      normalises to its lower-case form. */
  lemma {:induction false} NormalizeLowerWord(w: string)
    requires forall i :: 0 <= i < |w| ==> IsLowerAlnum(LowerChar(w[i]))
    ensures Normalize(w) == Lower(w)
    decreases |w|
  {
    if |w| > 0 {
      assert Lower(w) == [LowerChar(w[0])] + Lower(w[1..]);
      NormalizeLowerWord(w[1..]);
    }
  }

  /** A lower-case alphanumeric word normalises to itself. */
  lemma {:induction false} NormalizeWord(w: string)
    requires forall i :: 0 <= i < |w| ==> IsLowerAlnum(w[i])
    ensures Normalize(w) == w
    decreases |w|
  {
    if |w| > 0 {
      NormalizeWord(w[1..]);
    }
  }

  /** Normalising twice changes nothing. */
  lemma NormalizeIdempotent(str: string)
    ensures Normalize(Normalize(str)) == Normalize(str)
  {
    NormalizeWord(Normalize(str));
  }

  // ---------------------------------------------------------- best match

  /** `item.name || item.payeeName || ''` */
  function ItemName(item: Record): string
  {
    FieldOr(item, "name", FieldOr(item, "payeeName", ""))
  }

  /** The search's working state: the current best candidate and its score. */
  datatype Best = Best(item: Option<Record>, score: real)

  datatype Match = Match(matched: Record, confidence: real)

  predicate Overlaps(a: string, b: string)
  {
    Contains(a, b) || Contains(b, a)
  }

  /** `shorterLen / longerLen` of the substring rule. */
  function ContainsScore(a: string, b: string): real
    requires a != b
  {
    var longer := Max(|a|, |b|);
    var shorter := if |a| <= |b| then |a| else |b|;
    shorter as real / longer as real
  }

  /** `1 - distance / maxLen` of the edit-distance rule. */
  function Similarity(a: string, b: string): real
    requires a != b
  {
    1.0 - Lev(a, b) as real / Max(|a|, |b|) as real
  }

  /** The state after the substring rule has looked at `itemNorm`: it
      compares the UNSCALED score against the stored (scaled) one and stores
      the score scaled by 0.95; no threshold is consulted. */
  function AfterContains(searchNorm: string, item: Record, itemNorm: string, st: Best): Best
    requires itemNorm != searchNorm
  {
    if Overlaps(itemNorm, searchNorm) && ContainsScore(searchNorm, itemNorm) > st.score
    then Best(Some(item), ContainsScore(searchNorm, itemNorm) * 0.95)
    else st
  }

  /** The `forEach` callback of `findBestMatch` on a candidate whose
      normalised name is `itemNorm`. */
  function Visit(searchNorm: string, threshold: real, st: Best, item: Record, itemNorm: string): Best
  {
    if itemNorm == searchNorm then Best(Some(item), 1.0)
    else
      var st1 := AfterContains(searchNorm, item, itemNorm, st);
      var sim := Similarity(searchNorm, itemNorm);
      if sim > st1.score && sim >= threshold then Best(Some(item), sim) else st1
  }

  /** One iteration of the `forEach` callback of `findBestMatch`. */
  function Step(searchNorm: string, threshold: real, st: Best, item: Record): Best
  {
    Visit(searchNorm, threshold, st, item, Normalize(ItemName(item)))
  }

  /** The candidates visited in order, starting from state `st`. */
  function Scan(searchNorm: string, threshold: real, items: seq<Record>, st: Best): Best
    decreases |items|
  {
    if |items| == 0 then st else Scan(searchNorm, threshold, items[1..], Step(searchNorm, threshold, st, items[0]))
  }

  /** What `findBestMatch(searchName, dataList, threshold)` returns. An empty
      query, a missing list and an empty list give `null`. */
  function BestMatch(searchName: string, dataList: Option<seq<Record>>, threshold: real): (r: Option<Match>)
    ensures (searchName == "" || dataList.None? || dataList.value == []) ==> r.None?
  {
    if searchName == "" || dataList.None? || |dataList.value| == 0 then None
    else
      var st := Scan(Normalize(searchName), threshold, dataList.value, Best(None, 0.0));
      if st.item.Some? then Some(Match(st.item.value, st.score)) else None
  }

  /** The `forEach` callback of `findBestMatch`: looks at one candidate and
      returns the updated best candidate and score. */
  method VisitCandidate(searchNorm: string, threshold: real, bestMatch: Option<Record>, bestScore: real, item: Record)
    returns (bestMatch': Option<Record>, bestScore': real)
    ensures Best(bestMatch', bestScore') == Step(searchNorm, threshold, Best(bestMatch, bestScore), item)
  {
    bestMatch', bestScore' := bestMatch, bestScore;
    var itemNorm := Normalize(ItemName(item));
    if itemNorm == searchNorm {
      return Some(item), 1.0;
    }
    assert |searchNorm| > 0 || |itemNorm| > 0;
    if Contains(itemNorm, searchNorm) || Contains(searchNorm, itemNorm) {
      var containsScore := ContainsScore(searchNorm, itemNorm);
      if containsScore > bestScore' {
        bestMatch', bestScore' := Some(item), containsScore * 0.95;
      }
    }
    assert Best(bestMatch', bestScore') == AfterContains(searchNorm, item, itemNorm, Best(bestMatch, bestScore));
    ghost var st1 := Best(bestMatch', bestScore');
    var distance := LevenshteinDistance(searchNorm, itemNorm);
    var maxLen := Max(|searchNorm|, |itemNorm|);
    var similarity := 1.0 - distance as real / maxLen as real;
    assert similarity == Similarity(searchNorm, itemNorm);
    if similarity > bestScore' && similarity >= threshold {
      bestMatch', bestScore' := Some(item), similarity;
    }
    assert Best(bestMatch', bestScore') == (if similarity > st1.score && similarity >= threshold then Best(Some(item), similarity) else st1);
  }

  lemma BestMatchUnfold(searchName: string, items: seq<Record>, threshold: real)
    requires searchName != "" && |items| > 0
    ensures var st := Scan(Normalize(searchName), threshold, items, Best(None, 0.0));
            BestMatch(searchName, Some(items), threshold)
            == if st.item.Some? then Some(Match(st.item.value, st.score)) else None
  {
  }

  /** `findBestMatch`: visits the candidates in order, keeping the best
      candidate and its score in two variables. */
  method FindBestMatch(searchName: string, dataList: Option<seq<Record>>, threshold: real) returns (r: Option<Match>)
    ensures r == BestMatch(searchName, dataList, threshold)
  {
    if searchName == "" || dataList.None? || |dataList.value| == 0 {
      return None;
    }
    var items := dataList.value;
    var searchNorm := Normalize(searchName);
    var bestMatch: Option<Record> := None;
    var bestScore: real := 0.0;
    for i := 0 to |items|
      invariant Scan(searchNorm, threshold, items, Best(None, 0.0))
             == Scan(searchNorm, threshold, items[i..], Best(bestMatch, bestScore))
    {
      assert items[i..][1..] == items[i + 1..];
      bestMatch, bestScore := VisitCandidate(searchNorm, threshold, bestMatch, bestScore, items[i]);
    }
    assert items[|items|..] == [];
    if bestMatch.Some? {
      r := Some(Match(bestMatch.value, bestScore));
    } else {
      r := None;
    }
  }

  // ------------------------------------------------- properties of the search

  /** The state invariant of the search: no candidate yet means score 0; a
      candidate means a score in (0, 1]. */
  predicate Sane(st: Best)
  {
    (st.item.None? ==> st.score == 0.0) && (st.item.Some? ==> 0.0 < st.score <= 1.0)
  }

  lemma SimilarityBounds(a: string, b: string)
    requires a != b
    ensures 0.0 <= Similarity(a, b) <= 1.0
  {
    LevAtMostLonger(a, b);
    RatioBounds(Lev(a, b) as real, Max(|a|, |b|) as real);
  }

  lemma RatioBounds(d: real, m: real)
    requires 0.0 <= d <= m && m > 0.0
    ensures 0.0 <= d / m <= 1.0
  {
    assert d / m * m == d;
  }

  lemma ContainsScoreBounds(a: string, b: string)
    requires a != b
    ensures 0.0 <= ContainsScore(a, b) <= 1.0
  {
    var m := Max(|a|, |b|);
    assert m > 0;
  }

  lemma StepSane(searchNorm: string, threshold: real, st: Best, item: Record)
    requires Sane(st)
    ensures Sane(Step(searchNorm, threshold, st, item))
  {
    var itemNorm := Normalize(ItemName(item));
    if itemNorm != searchNorm {
      ContainsScoreBounds(searchNorm, itemNorm);
      SimilarityBounds(searchNorm, itemNorm);
    }
  }

  lemma {:induction false} ScanSane(searchNorm: string, threshold: real, items: seq<Record>, st: Best)
    requires Sane(st)
    ensures Sane(Scan(searchNorm, threshold, items, st))
    decreases |items|
  {
    if |items| > 0 {
      StepSane(searchNorm, threshold, st, items[0]);
      ScanSane(searchNorm, threshold, items[1..], Step(searchNorm, threshold, st, items[0]));
    }
  }

  /** Any match found has a confidence in (0, 1], whatever the threshold. */
  lemma ConfidenceInRange(searchName: string, dataList: Option<seq<Record>>, threshold: real)
    ensures var r := BestMatch(searchName, dataList, threshold);
            r.Some? ==> 0.0 < r.value.confidence <= 1.0
  {
    if !(searchName == "" || dataList.None? || |dataList.value| == 0) {
      ScanSane(Normalize(searchName), threshold, dataList.value, Best(None, 0.0));
    }
  }

  /** Once the score is 1.0, only another exact match replaces the candidate. */
  lemma StepKeepsFull(searchNorm: string, threshold: real, st: Best, item: Record)
    requires st.score == 1.0
    ensures var st' := Step(searchNorm, threshold, st, item);
            st'.score == 1.0
            && (st' == st || (st'.item == Some(item) && Normalize(ItemName(item)) == searchNorm))
  {
    var itemNorm := Normalize(ItemName(item));
    if itemNorm != searchNorm {
      ContainsScoreBounds(searchNorm, itemNorm);
      SimilarityBounds(searchNorm, itemNorm);
    }
  }

  predicate IsExact(searchNorm: string, item: Record)
  {
    Normalize(ItemName(item)) == searchNorm
  }

  /** After the last exact candidate at index `k`, the state is that
      candidate with score 1.0. */
  lemma {:induction false} ScanLastExact(searchNorm: string, threshold: real, items: seq<Record>, st: Best, k: nat)
    requires k < |items| && IsExact(searchNorm, items[k])
    requires forall j :: k < j < |items| ==> !IsExact(searchNorm, items[j])
    ensures Scan(searchNorm, threshold, items, st) == Best(Some(items[k]), 1.0)
    decreases |items|
  {
    var st1 := Step(searchNorm, threshold, st, items[0]);
    if k == 0 {
      AfterFull(searchNorm, threshold, items[1..], st1);
    } else {
      ScanLastExact(searchNorm, threshold, items[1..], st1, k - 1);
    }
  }

  /** With score 1.0 and no further exact candidate, nothing changes. */
  lemma {:induction false} AfterFull(searchNorm: string, threshold: real, items: seq<Record>, st: Best)
    requires st.score == 1.0
    requires forall j :: 0 <= j < |items| ==> !IsExact(searchNorm, items[j])
    ensures Scan(searchNorm, threshold, items, st) == st
    decreases |items|
  {
    if |items| > 0 {
      StepKeepsFull(searchNorm, threshold, st, items[0]);
      AfterFull(searchNorm, threshold, items[1..], st);
    }
  }

  /** If some candidate normalises to the query, the result is the LAST such
      candidate, with confidence 1.0. */
  lemma ExactMatchWins(searchName: string, items: seq<Record>, threshold: real, k: nat)
    requires searchName != ""
    requires k < |items| && IsExact(Normalize(searchName), items[k])
    requires forall j :: k < j < |items| ==> !IsExact(Normalize(searchName), items[j])
    ensures BestMatch(searchName, Some(items), threshold) == Some(Match(items[k], 1.0))
  {
    ScanLastExact(Normalize(searchName), threshold, items, Best(None, 0.0), k);
  }

  /** Why a candidate was chosen: by the exact rule, by the substring rule
      (with its scaled score, whatever the threshold), or by the edit-distance
      rule (and then its similarity reaches the threshold). */
  predicate Justified(searchNorm: string, threshold: real, m: Record, score: real)
  {
    var n := Normalize(ItemName(m));
    (n == searchNorm && score == 1.0)
    || (n != searchNorm && Overlaps(n, searchNorm) && score == ContainsScore(searchNorm, n) * 0.95)
    || (n != searchNorm && score == Similarity(searchNorm, n) && score >= threshold)
  }

  lemma StepJustified(searchNorm: string, threshold: real, st: Best, item: Record)
    requires st.item.Some? ==> Justified(searchNorm, threshold, st.item.value, st.score)
    ensures var st' := Step(searchNorm, threshold, st, item);
            (st' == st || st'.item == Some(item))
            && (st'.item.Some? ==> Justified(searchNorm, threshold, st'.item.value, st'.score))
  {
    var n := Normalize(ItemName(item));
    if n != searchNorm {
      var st1 := AfterContains(searchNorm, item, n, st);
      assert st1 == st || (st1.item == Some(item) && Justified(searchNorm, threshold, item, st1.score));
      var sim := Similarity(searchNorm, n);
      assert Step(searchNorm, threshold, st, item)
          == if sim > st1.score && sim >= threshold then Best(Some(item), sim) else st1;
    }
  }

  lemma {:induction false} ScanJustified(searchNorm: string, threshold: real, items: seq<Record>, st: Best)
    requires st.item.Some? ==> Justified(searchNorm, threshold, st.item.value, st.score)
    ensures var st' := Scan(searchNorm, threshold, items, st);
            st'.item.Some? ==>
              Justified(searchNorm, threshold, st'.item.value, st'.score)
              && (st'.item.value in items || st'.item == st.item)
    decreases |items|
  {
    if |items| > 0 {
      var st1 := Step(searchNorm, threshold, st, items[0]);
      StepJustified(searchNorm, threshold, st, items[0]);
      ScanJustified(searchNorm, threshold, items[1..], st1);
      var st' := Scan(searchNorm, threshold, items[1..], st1);
      if st'.item.Some? && st'.item.value in items[1..] {
        var j :| 0 <= j < |items[1..]| && items[1..][j] == st'.item.value;
        assert items[j + 1] == st'.item.value;
      }
    }
  }

  /** Every match comes from the list and is justified by one of the three
      rules; only the substring rule can return a confidence below the
      threshold. */
  lemma MatchIsJustified(searchName: string, items: seq<Record>, threshold: real)
    ensures var r := BestMatch(searchName, Some(items), threshold);
            r.Some? ==> r.value.matched in items
                        && Justified(Normalize(searchName), threshold, r.value.matched, r.value.confidence)
  {
    if searchName != "" && |items| > 0 {
      ScanJustified(Normalize(searchName), threshold, items, Best(None, 0.0));
    }
  }

  /** The substring rule does not consult the threshold: on the first
      candidate, whose name overlaps the query and whose edit-distance
      similarity does not exceed the scaled score, the callback stores
      `shorter / longer * 0.95`, whatever the threshold. */
  lemma SubstringSkipsThreshold(searchNorm: string, threshold: real, item: Record, itemNorm: string)
    requires itemNorm != searchNorm && Overlaps(itemNorm, searchNorm)
    requires ContainsScore(searchNorm, itemNorm) > 0.0
    requires Similarity(searchNorm, itemNorm) <= ContainsScore(searchNorm, itemNorm) * 0.95
    ensures Visit(searchNorm, threshold, Best(None, 0.0), item, itemNorm)
         == Best(Some(item), ContainsScore(searchNorm, itemNorm) * 0.95)
  {
  }

  lemma {:induction false} NormalizeAppend(a: string, b: string)
    ensures Normalize(a + b) == Normalize(a) + Normalize(b)
    decreases |a|
  {
    if |a| == 0 {
      assert a + b == b;
    } else {
      assert (a + b)[1..] == a[1..] + b;
      NormalizeAppend(a[1..], b);
    }
  }

  lemma BhairaavLetters()
    ensures forall i :: 0 <= i < |"BHAIRAAV"| ==> IsLowerAlnum(LowerChar("BHAIRAAV"[i]))
  {
  }

  lemma WaterLetters()
    ensures forall i :: 0 <= i < |"WATER"| ==> IsLowerAlnum(LowerChar("WATER"[i]))
  {
  }

  lemma SystemsLetters()
    ensures forall i :: 0 <= i < |"SYSTEMS"| ==> IsLowerAlnum(LowerChar("SYSTEMS"[i]))
  {
  }

  lemma LowerBhairaav()
    ensures Lower("BHAIRAAV") == "bhairaav"
  {
  }

  lemma LowerWater()
    ensures Lower("WATER") == "water"
  {
  }

  lemma LowerSystems()
    ensures Lower("SYSTEMS") == "systems"
  {
  }

  lemma NormalizeBhairaav()
    ensures Normalize("BHAIRAAV") == "bhairaav"
  {
    BhairaavLetters();
    NormalizeLowerWord("BHAIRAAV");
    LowerBhairaav();
  }

  lemma NormalizeWater()
    ensures Normalize("WATER") == "water"
  {
    WaterLetters();
    NormalizeLowerWord("WATER");
    LowerWater();
  }

  lemma NormalizeSystems()
    ensures Normalize("SYSTEMS") == "systems"
  {
    SystemsLetters();
    NormalizeLowerWord("SYSTEMS");
    LowerSystems();
  }

  lemma SpacedName()
    ensures "BHAIRAAV WATER SYSTEMS" == "BHAIRAAV" + " " + "WATER" + " " + "SYSTEMS"
  {
  }

  lemma JoinedName()
    ensures "bhairaav" + "water" + "systems" == "bhairaavwatersystems"
  {
  }

  lemma NormalizeBhairaavWaterSystems()
    ensures Normalize("BHAIRAAV WATER SYSTEMS") == "bhairaavwatersystems"
  {
    var a := "BHAIRAAV" + " ";
    var b := a + "WATER";
    var c := b + " ";
    var d := c + "SYSTEMS";
    SpacedName();
    assert Normalize(" ") == "";
    assert Normalize(a) == "bhairaav" by {
      NormalizeBhairaav();
      NormalizeAppend("BHAIRAAV", " ");
    }
    assert Normalize(b) == "bhairaav" + "water" by {
      NormalizeWater();
      NormalizeAppend(a, "WATER");
    }
    assert Normalize(c) == "bhairaav" + "water" by {
      NormalizeAppend(b, " ");
    }
    assert Normalize(d) == "bhairaav" + "water" + "systems" by {
      NormalizeSystems();
      NormalizeAppend(c, "SYSTEMS");
    }
    JoinedName();
  }

  lemma BhairaavContained()
    ensures Contains("bhairaavwatersystems", "bhairaav")
  {
    assert "bhairaavwatersystems"[..8] == "bhairaav";
  }

  lemma BhairaavScores()
    ensures ContainsScore("bhairaav", "bhairaavwatersystems") == 0.4
    ensures Similarity("bhairaav", "bhairaavwatersystems") <= 0.4
  {
    var q, n := "bhairaav", "bhairaavwatersystems";
    assert |q| == 8 && |n| == 20;
    LevAtLeastLengthGap(q, n);
    var d := Lev(q, n);
    assert d >= 12;
    assert Similarity(q, n) == 1.0 - d as real / 20.0;
  }

  /** The directory entry of vendor V007. */
  const Bhairaav: Record := map["id" := "V007", "name" := "BHAIRAAV WATER SYSTEMS"]

  lemma BhairaavFirstStep()
    ensures Step("bhairaav", 0.6, Best(None, 0.0), Bhairaav) == Best(Some(Bhairaav), 0.38)
  {
    var q, n := "bhairaav", "bhairaavwatersystems";
    var st0 := Best(None, 0.0);
    assert ItemName(Bhairaav) == "BHAIRAAV WATER SYSTEMS";
    NormalizeBhairaavWaterSystems();
    assert AfterContains(q, Bhairaav, n, st0) == Best(Some(Bhairaav), 0.38) by {
      BhairaavContained();
      BhairaavScores();
    }
    BhairaavScores();
  }

  lemma BhairaavScan()
    ensures Scan("bhairaav", 0.6, [Bhairaav], Best(None, 0.0)) == Best(Some(Bhairaav), 0.38)
  {
    BhairaavFirstStep();
    assert [Bhairaav][1..] == [];
  }

  /** The vendor `BHAIRAAV WATER SYSTEMS` is found for the query `BHAIRAAV`
      by the substring rule with confidence 8/20 * 0.95 = 0.38, below the
      threshold 0.6 that the edit-distance rule would have required. */
  lemma BhairaavExample()
    ensures BestMatch("BHAIRAAV", Some([Bhairaav]), 0.6) == Some(Match(Bhairaav, 0.38))
  {
    NormalizeBhairaav();
    BhairaavScan();
    BestMatchUnfold("BHAIRAAV", [Bhairaav], 0.6);
  }

  lemma NormalizeShortNames()
    ensures Normalize("ab") == "ab" && Normalize("abx") == "abx" && Normalize("aby") == "aby"
  {
  }

  /** "ab" followed by one more character scores 2/3 under both rules. */
  lemma AbPlusOne(c: char)
    requires c != 'b'
    ensures Contains("ab" + [c], "ab")
    ensures ContainsScore("ab", "ab" + [c]) == 2.0 / 3.0
    ensures Similarity("ab", "ab" + [c]) == 2.0 / 3.0
  {
    var t := "ab" + [c];
    assert t[..2] == "ab";
    assert |t| == 3;
    LevAtLeastLengthGap("ab", t);
    LevSelf("ab");
    assert t[..|t| - 1] == "ab";
    assert Lev("ab", t) <= 1 + Lev("ab", "ab");
  }

  /** The substring rule compares its unscaled score with the stored, scaled
      one: of two candidates with the same substring score, the later one
      replaces the earlier. */
  lemma LaterEqualSubstringReplaces()
    ensures var a, b := map["name" := "abx"], map["name" := "aby"];
            BestMatch("ab", Some([a, b]), 0.9) == Some(Match(b, 2.0 / 3.0 * 0.95))
  {
    var a, b := map["name" := "abx"], map["name" := "aby"];
    NormalizeShortNames();
    assert ItemName(a) == "abx" && ItemName(b) == "aby";
    assert "abx" == "ab" + ['x'] && "aby" == "ab" + ['y'];
    AbPlusOne('x');
    AbPlusOne('y');
    var st0 := Best(None, 0.0);
    var st1 := AfterContains("ab", a, "abx", st0);
    assert st1 == Best(Some(a), 2.0 / 3.0 * 0.95);
    assert Visit("ab", 0.9, st0, a, "abx") == st1;
    assert Step("ab", 0.9, st0, a) == st1;
    var st2 := AfterContains("ab", b, "aby", st1);
    assert st2 == Best(Some(b), 2.0 / 3.0 * 0.95);
    assert Visit("ab", 0.9, st1, b, "aby") == st2;
    assert Step("ab", 0.9, st1, b) == st2;
    assert [a, b][1..] == [b] && [b][1..] == [];
    assert Scan("ab", 0.9, [a, b], st0) == Scan("ab", 0.9, [b], st1);
    assert Scan("ab", 0.9, [b], st1) == st2;
    BestMatchUnfold("ab", [a, b], 0.9);
  }

  // ---------------------------------------------------------- batch and bands

  datatype BatchEntry = BatchEntry(original: Record, found: Option<Match>)

  /** `matchBatch`: one entry per input item, in input order, each holding
      the item and the match for its `name`. */
  function MatchBatch(items: seq<Record>, masterDataList: Option<seq<Record>>, threshold: real): (r: seq<BatchEntry>)
    ensures |r| == |items|
    ensures forall i :: 0 <= i < |items| ==>
      r[i].original == items[i] && r[i].found == BestMatch(FieldOr(items[i], "name", ""), masterDataList, threshold)
  {
    seq(|items|, i requires 0 <= i < |items| =>
      BatchEntry(items[i], BestMatch(FieldOr(items[i], "name", ""), masterDataList, threshold)))
  }

  datatype ConfidenceBand = High | Medium | Low | VeryLow

  /** `getConfidenceLabel(score)` */
  function ConfidenceLabel(score: real): (b: ConfidenceBand)
    ensures b == High <==> score >= 0.95
    ensures b == Medium <==> 0.8 <= score < 0.95
    ensures b == Low <==> 0.6 <= score < 0.8
    ensures b == VeryLow <==> score < 0.6
  {
    if score >= 0.95 then High
    else if score >= 0.8 then Medium
    else if score >= 0.6 then Low
    else VeryLow
  }

  function LabelText(b: ConfidenceBand): string
  {
    match b
    case High => "High"
    case Medium => "Medium"
    case Low => "Low"
    case VeryLow => "Very Low"
  }

  function BandRank(b: ConfidenceBand): nat
  {
    match b
    case VeryLow => 0
    case Low => 1
    case Medium => 2
    case High => 3
  }

  /** `needsConfirmation(confidence)` */
  predicate NeedsConfirmation(confidence: real)
    ensures ConfidenceLabel(confidence) == High ==> !NeedsConfirmation(confidence)
    ensures ConfidenceLabel(confidence) in {Low, VeryLow} ==> NeedsConfirmation(confidence)
  {
    confidence < 0.9
  }

  /** The bands are monotone in the score, and a match accepted without
      confirmation is always labelled High or Medium, while every Low or
      Very Low match needs confirmation. */
  lemma BandsAgreeWithConfirmation(x: real, y: real)
    ensures x <= y ==> BandRank(ConfidenceLabel(x)) <= BandRank(ConfidenceLabel(y))
    ensures !NeedsConfirmation(x) ==> ConfidenceLabel(x) in {High, Medium}
    ensures ConfidenceLabel(x) in {Low, VeryLow} ==> NeedsConfirmation(x)
    ensures ConfidenceLabel(x) == High <==> x >= 0.95
  {
  }

  /** An exact match is labelled High and needs no confirmation. */
  lemma ExactMatchIsHigh(searchName: string, items: seq<Record>, threshold: real, k: nat)
    requires searchName != ""
    requires k < |items| && IsExact(Normalize(searchName), items[k])
    requires forall j :: k < j < |items| ==> !IsExact(Normalize(searchName), items[j])
    ensures var r := BestMatch(searchName, Some(items), threshold);
            r.Some? && ConfidenceLabel(r.value.confidence) == High && !NeedsConfirmation(r.value.confidence)
  {
    ExactMatchWins(searchName, items, threshold, k);
  }
}

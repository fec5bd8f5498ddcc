/** The JavaScript string and object primitives the back office relies on:
    `includes`, `startsWith`, ASCII case mapping, `trim`, `split`, `join`,
    `padStart`, quote stripping, `parseFloat`, and plain objects as maps. */
module Js {

  datatype Option<+T> = None | Some(value: T)

  /** A computation that returns a value or throws an `Error` with a message. */
  datatype Result<+T> = Ok(value: T) | Err(message: string)

  /** A plain JavaScript object whose fields hold text. A key that is absent
      reads as `undefined`; the empty string is the only falsy value. */
  type Record = map<string, string>

  function Get(r: Record, key: string): (v: Option<string>)
    ensures v.Some? <==> key in r
    ensures v.Some? ==> v.value == r[key]
  {
    if key in r then Some(r[key]) else None
  }

  /** `!!obj[key]`: the field is present and not the empty string. */
  predicate Truthy(r: Record, key: string)
  {
    key in r && r[key] != ""
  }

  /** `obj[key] || ''` */
  function FieldOr(r: Record, key: string, default: string): (v: string)
    ensures Truthy(r, key) ==> v == r[key]
    ensures !Truthy(r, key) ==> v == default
  {
    if Truthy(r, key) then r[key] else default
  }

  /** `{...r, [key]: v}` where `v` may be `undefined`, which reads exactly
      like an absent key and is kept as one. */
  function Put(r: Record, key: string, v: Option<string>): (s: Record)
    ensures Get(s, key) == v
    ensures forall k :: k != key ==> Get(s, k) == Get(r, k)
  {
    if v.Some? then r[key := v.value] else r - {key}
  }

  /** Template-literal rendering of a possibly missing field: `${obj[key]}`. */
  function Show(v: Option<string>): (s: string)
    ensures v.Some? ==> s == v.value
    ensures v.None? ==> s == "undefined"
  {
    match v
    case Some(t) => t
    case None => "undefined"
  }

  // ---------------------------------------------------------------- searching

  predicate IsPrefix(p: string, s: string)
  {
    |p| <= |s| && s[..|p|] == p
  }

  /** `s.includes(sub)`, by recursion on `s`. */
  predicate Contains(s: string, sub: string)
    decreases |s|
  {
    IsPrefix(sub, s) || (|s| > 0 && Contains(s[1..], sub))
  }

  /** `sub` occurs in `s` starting at index `i`. */
  predicate OccursAt(s: string, sub: string, i: int)
  {
    0 <= i <= |s| - |sub| && s[i..i + |sub|] == sub
  }

  /** `Contains` holds exactly when `sub` occurs at some index of `s`. */
  lemma {:induction false} ContainsIff(s: string, sub: string)
    ensures Contains(s, sub) <==> exists i :: OccursAt(s, sub, i)
    decreases |s|
  {
    if IsPrefix(sub, s) {
      assert OccursAt(s, sub, 0);
    } else if |s| > 0 {
      ContainsIff(s[1..], sub);
      if exists i :: OccursAt(s, sub, i) {
        var i :| OccursAt(s, sub, i);
        assert i != 0;
        assert OccursAt(s[1..], sub, i - 1);
      }
      if exists i :: OccursAt(s[1..], sub, i) {
        var i :| OccursAt(s[1..], sub, i);
        assert OccursAt(s, sub, i + 1);
      }
    }
  }

  lemma ContainsEmpty(s: string)
    ensures Contains(s, "")
  {
    assert IsPrefix("", s);
  }

  lemma ContainsSelf(s: string)
    ensures Contains(s, s)
  {
    assert IsPrefix(s, s);
  }

  /** Nothing longer than `s` occurs in `s`. */
  lemma {:induction false} ContainsShorter(s: string, sub: string)
    requires Contains(s, sub)
    ensures |sub| <= |s|
    decreases |s|
  {
    if !IsPrefix(sub, s) {
      ContainsShorter(s[1..], sub);
    }
  }

  /** Text lacking a character of `sub` does not contain `sub`. */
  lemma Absent(s: string, sub: string, c: char)
    requires c in sub && c !in s
    ensures !Contains(s, sub)
  {
    ContainsIff(s, sub);
  }

  // ------------------------------------------------------------ subsequences

  /** `a` is `b` with some elements left out, the rest kept in order. */
  predicate IsSubsequence<T(==)>(a: seq<T>, b: seq<T>)
    decreases |b|
  {
    |a| == 0
    || (|b| > 0
        && ((a[|a| - 1] == b[|b| - 1] && IsSubsequence(a[..|a| - 1], b[..|b| - 1]))
            || IsSubsequence(a, b[..|b| - 1])))
  }

  lemma SubsequenceSkip<T>(a: seq<T>, b: seq<T>, x: T)
    requires IsSubsequence(a, b)
    ensures IsSubsequence(a, b + [x])
  {
    assert (b + [x])[..|b|] == b;
  }

  lemma SubsequenceKeep<T>(a: seq<T>, b: seq<T>, x: T)
    requires IsSubsequence(a, b)
    ensures IsSubsequence(a + [x], b + [x])
  {
    assert (b + [x])[..|b|] == b;
    assert (a + [x])[..|a|] == a;
  }

  /** `xs.filter(p)`, by recursion on the last element: exactly the elements
      satisfying `p`, each as often as in `xs`, in their original order. */
  function Filter<T(==,!new)>(xs: seq<T>, p: T -> bool): (r: seq<T>)
    ensures |r| <= |xs|
    ensures forall i :: 0 <= i < |r| ==> p(r[i])
    ensures forall x :: x in r <==> x in xs && p(x)
    ensures forall x :: multiset(r)[x] == if p(x) then multiset(xs)[x] else 0
    ensures IsSubsequence(r, xs)
    decreases |xs|
  {
    if |xs| == 0 then []
    else
      var init := xs[..|xs| - 1];
      var last := xs[|xs| - 1];
      var kept := Filter(init, p);
      InitLast(xs);
      if p(last) then SubsequenceKeep(kept, init, last); kept + [last]
      else SubsequenceSkip(kept, init, last); kept
  }

  /** Filtering by `p` and then, when `applied`, by `q` is filtering once by
      `pq`, provided `pq` is `p` together with `q` where `q` is applied. */
  lemma {:induction false} FilterThen<T(!new)>(xs: seq<T>, p: T -> bool, q: T -> bool, pq: T -> bool, applied: bool)
    requires forall x :: pq(x) == (p(x) && (applied ==> q(x)))
    ensures (if applied then Filter(Filter(xs, p), q) else Filter(xs, p)) == Filter(xs, pq)
    decreases |xs|
  {
    if |xs| > 0 {
      FilterThen(xs[..|xs| - 1], p, q, pq, applied);
      if applied {
        var init := Filter(xs[..|xs| - 1], p);
        var last := xs[|xs| - 1];
        if p(last) {
          assert Filter(init + [last], q) == Filter(init, q) + (if q(last) then [last] else []) by {
            assert (init + [last])[..|init|] == init;
          }
        }
      }
    }
  }

  /** A filter that every element passes keeps everything. */
  lemma {:induction false} FilterAll<T(!new)>(xs: seq<T>, p: T -> bool)
    requires forall i :: 0 <= i < |xs| ==> p(xs[i])
    ensures Filter(xs, p) == xs
    decreases |xs|
  {
    if |xs| > 0 {
      var init := xs[..|xs| - 1];
      FilterAll(init, p);
      InitLast(xs);
      assert Filter(xs, p) == Filter(init, p) + [xs[|xs| - 1]];
    }
  }

  /** A non-empty sequence is its front followed by its last element. */
  lemma InitLast<T>(xs: seq<T>)
    requires |xs| > 0
    ensures xs[..|xs| - 1] + [xs[|xs| - 1]] == xs
  {
  }

  // ---------------------------------------------------------- case mapping

  function LowerChar(c: char): char
  {
    if 'A' <= c <= 'Z' then (c as int + 32) as char else c
  }

  function UpperChar(c: char): char
  {
    if 'a' <= c <= 'z' then (c as int - 32) as char else c
  }

  /** `toLowerCase`, on the ASCII letters. */
  function Lower(s: string): (r: string)
    ensures |r| == |s|
    ensures forall i :: 0 <= i < |s| ==> r[i] == LowerChar(s[i])
  {
    seq(|s|, i requires 0 <= i < |s| => LowerChar(s[i]))
  }

  /** `toUpperCase`, on the ASCII letters. */
  function Upper(s: string): (r: string)
    ensures |r| == |s|
    ensures forall i :: 0 <= i < |s| ==> r[i] == UpperChar(s[i])
  {
    seq(|s|, i requires 0 <= i < |s| => UpperChar(s[i]))
  }

  lemma LowerIdempotent(s: string)
    ensures Lower(Lower(s)) == Lower(s)
  {
  }

  // ------------------------------------------------------------------ trim

  /** The characters `String.prototype.trim` removes: the WhiteSpace and
      LineTerminator code points of ECMAScript. */
  predicate IsJsSpace(c: char)
  {
    c == '\t' || c == '\n' || c == '\U{B}' || c == '\U{C}' || c == '\r' || c == ' '
    || c == '\U{A0}' || c == '\U{1680}' || ('\U{2000}' <= c <= '\U{200A}')
    || c == '\U{2028}' || c == '\U{2029}' || c == '\U{202F}' || c == '\U{205F}'
    || c == '\U{3000}' || c == '\U{FEFF}'
  }

  function TrimStart(s: string): (r: string)
    ensures |r| <= |s|
    decreases |s|
  {
    if |s| > 0 && IsJsSpace(s[0]) then TrimStart(s[1..]) else s
  }

  function TrimEnd(s: string): (r: string)
    ensures |r| <= |s|
    decreases |s|
  {
    if |s| > 0 && IsJsSpace(s[|s| - 1]) then TrimEnd(s[..|s| - 1]) else s
  }

  /** `TrimStart` keeps a suffix that does not start with a space. */
  lemma {:induction false} TrimStartSuffix(s: string)
    ensures TrimStart(s) == s[|s| - |TrimStart(s)|..]
    ensures TrimStart(s) == [] || !IsJsSpace(TrimStart(s)[0])
    decreases |s|
  {
    if |s| > 0 && IsJsSpace(s[0]) {
      TrimStartSuffix(s[1..]);
    }
  }

  /** `TrimEnd` keeps a prefix that does not end with a space. */
  lemma {:induction false} TrimEndPrefix(s: string)
    ensures TrimEnd(s) == s[..|TrimEnd(s)|]
    ensures TrimEnd(s) == [] || !IsJsSpace(TrimEnd(s)[|TrimEnd(s)| - 1])
    decreases |s|
  {
    if |s| > 0 && IsJsSpace(s[|s| - 1]) {
      TrimEndPrefix(s[..|s| - 1]);
    }
  }

  /** What `TrimStart` drops is spaces. */
  lemma {:induction false} TrimStartSpaces(s: string)
    ensures forall i :: 0 <= i < |s| - |TrimStart(s)| ==> IsJsSpace(s[i])
    decreases |s|
  {
    if |s| > 0 && IsJsSpace(s[0]) {
      var t := s[1..];
      TrimStartSpaces(t);
      assert TrimStart(s) == TrimStart(t);
      forall i | 0 <= i < |s| - |TrimStart(s)|
        ensures IsJsSpace(s[i])
      {
        if i > 0 {
          assert s[i] == t[i - 1];
        }
      }
    }
  }

  /** What `TrimEnd` drops is spaces. */
  lemma {:induction false} TrimEndSpaces(s: string)
    ensures forall i :: |TrimEnd(s)| <= i < |s| ==> IsJsSpace(s[i])
    decreases |s|
  {
    if |s| > 0 && IsJsSpace(s[|s| - 1]) {
      var t := s[..|s| - 1];
      TrimEndSpaces(t);
      assert TrimEnd(s) == TrimEnd(t);
      forall i | |TrimEnd(s)| <= i < |s|
        ensures IsJsSpace(s[i])
      {
        if i < |s| - 1 {
          assert s[i] == t[i];
        }
      }
    }
  }

  /** `trim`: spaces dropped from both ends. */
  function Trim(s: string): (r: string)
    ensures |r| <= |s|
  {
    TrimEnd(TrimStart(s))
  }

  /** `trim` leaves no white space at either end. */
  lemma TrimNoSpaceEnds(s: string)
    ensures var r := Trim(s);
            r == [] || (!IsJsSpace(r[0]) && !IsJsSpace(r[|r| - 1]))
  {
    var a := TrimStart(s);
    TrimStartSuffix(s);
    TrimEndPrefix(a);
    var r := TrimEnd(a);
    if r != [] {
      assert r[0] == a[0];
    }
  }

  /** `Trim(s)` is the slice of `s` that starts where `TrimStart` starts. */
  lemma TrimIsSlice(s: string)
    ensures |Trim(s)| <= |TrimStart(s)|
    ensures Trim(s) == s[|s| - |TrimStart(s)|..|s| - |TrimStart(s)| + |Trim(s)|]
  {
    var a := TrimStart(s);
    var b := TrimEnd(a);
    assert Trim(s) == b;
    TrimStartAt(s);
    TrimEndAt(a);
    SliceOfSuffix(s, a, b);
  }

  /** `TrimStart(s)` is the suffix of `s` that starts after the spaces. */
  lemma TrimStartAt(s: string)
    ensures |TrimStart(s)| <= |s| && TrimStart(s) == s[|s| - |TrimStart(s)|..]
  {
    TrimStartSuffix(s);
  }

  /** `TrimEnd(s)` is the prefix of `s` that ends before the spaces. */
  lemma TrimEndAt(s: string)
    ensures |TrimEnd(s)| <= |s| && TrimEnd(s) == s[..|TrimEnd(s)|]
  {
    TrimEndPrefix(s);
  }

  /** A prefix of a suffix is a slice. */
  lemma SliceOfSuffix<T>(s: seq<T>, a: seq<T>, b: seq<T>)
    requires |a| <= |s| && a == s[|s| - |a|..]
    requires |b| <= |a| && b == a[..|b|]
    ensures b == s[|s| - |a|..|s| - |a| + |b|]
  {
  }

  /** Every character of `Trim(s)` is a character of `s`. */
  lemma TrimChars(s: string, c: char)
    requires c in Trim(s)
    ensures c in s
  {
    var r := Trim(s);
    TrimIsSlice(s);
    var k := |s| - |TrimStart(s)|;
    var j :| 0 <= j < |r| && r[j] == c;
    assert s[k + j] == c;
  }

  // ------------------------------------------------------ replace and split

  /** `s.replace(/c/g, '')`: every occurrence of `c` dropped. */
  function RemoveAll(s: string, c: char): (r: string)
    ensures c !in r
    ensures |r| <= |s|
    decreases |s|
  {
    if |s| == 0 then ""
    else if s[0] == c then RemoveAll(s[1..], c)
    else [s[0]] + RemoveAll(s[1..], c)
  }

  lemma {:induction false} RemoveAllAppend(a: string, b: string, c: char)
    ensures RemoveAll(a + b, c) == RemoveAll(a, c) + RemoveAll(b, c)
    decreases |a|
  {
    if |a| == 0 {
      assert a + b == b;
    } else {
      assert (a + b)[0] == a[0] && (a + b)[1..] == a[1..] + b;
      RemoveAllAppend(a[1..], b, c);
      if a[0] == c {
        calc {
          RemoveAll(a + b, c);
          RemoveAll((a + b)[1..], c);
          RemoveAll(a[1..], c) + RemoveAll(b, c);
          RemoveAll(a, c) + RemoveAll(b, c);
        }
      } else {
        calc {
          RemoveAll(a + b, c);
          [a[0]] + RemoveAll((a + b)[1..], c);
          [a[0]] + (RemoveAll(a[1..], c) + RemoveAll(b, c));
          ([a[0]] + RemoveAll(a[1..], c)) + RemoveAll(b, c);
          RemoveAll(a, c) + RemoveAll(b, c);
        }
      }
    }
  }

  /** A text without `c` is left as it is. */
  lemma {:induction false} RemoveAllAbsent(s: string, c: char)
    requires c !in s
    ensures RemoveAll(s, c) == s
    decreases |s|
  {
    if |s| > 0 {
      RemoveAllAbsent(s[1..], c);
    }
  }

  /** `s.replace('c', '')`: only the first occurrence of `c` dropped. */
  function RemoveFirst(s: string, c: char): (r: string)
    ensures c in s ==> |r| == |s| - 1
    ensures c !in s ==> r == s
    ensures forall x :: x in r ==> x in s
    decreases |s|
  {
    if |s| == 0 then ""
    else if s[0] == c then s[1..]
    else [s[0]] + RemoveFirst(s[1..], c)
  }

  /** Only the first `c` goes: the one that ends a `c`-free prefix. */
  lemma {:induction false} RemoveFirstAt(a: string, c: char, b: string)
    requires c !in a
    ensures RemoveFirst(a + [c] + b, c) == a + b
    decreases |a|
  {
    var s := a + [c] + b;
    if |a| == 0 {
      assert s[1..] == b;
    } else {
      var t := a[1..] + [c] + b;
      assert s == [a[0]] + t;
      RemoveFirstAt(a[1..], c, b);
      RemoveFirstCons(a[0], t, c);
      HeadTail(a, b);
    }
  }

  lemma HeadTail<T>(a: seq<T>, b: seq<T>)
    requires |a| > 0
    ensures [a[0]] + (a[1..] + b) == a + b
  {
    assert a == [a[0]] + a[1..];
  }

  lemma RemoveFirstCons(x: char, t: string, c: char)
    requires x != c
    ensures RemoveFirst([x] + t, c) == [x] + RemoveFirst(t, c)
  {
    assert ([x] + t)[1..] == t;
  }

  /** `s.split(d)` for a one-character separator. */
  function Split(s: string, d: char): (parts: seq<string>)
    ensures |parts| >= 1
    ensures forall i :: 0 <= i < |parts| ==> d !in parts[i]
    decreases |s|
  {
    if |s| == 0 then [""]
    else
      var rest := Split(s[1..], d);
      if s[0] == d then [""] + rest
      else [[s[0]] + rest[0]] + rest[1..]
  }

  /** `parts.join(sep)` */
  function Join(parts: seq<string>, sep: string): (s: string)
    decreases |parts|
  {
    if |parts| == 0 then ""
    else if |parts| == 1 then parts[0]
    else parts[0] + sep + Join(parts[1..], sep)
  }

  /** Text without the separator is one part. */
  lemma {:induction false} SplitNoSeparator(a: string, d: char)
    requires d !in a
    ensures Split(a, d) == [a]
    decreases |a|
  {
    if |a| > 0 {
      SplitNoSeparator(a[1..], d);
      assert [a[0]] + a[1..] == a;
    }
  }

  /** The first part runs up to the first separator. */
  lemma {:induction false} SplitFirst(a: string, d: char, rest: string)
    requires d !in a
    ensures Split(a + [d] + rest, d) == [a] + Split(rest, d)
    decreases |a|
  {
    var s := a + [d] + rest;
    if |a| == 0 {
      assert s == [d] + rest;
      assert s[1..] == rest;
    } else {
      SplitFirst(a[1..], d, rest);
      assert s[1..] == a[1..] + [d] + rest;
      assert [a[0]] + a[1..] == a;
    }
  }

  lemma Assoc3<T>(a: seq<T>, b: seq<T>, c: seq<T>)
    ensures a + (b + c) == a + b + c
  {
  }

  /** Joining parts that do not contain the separator and splitting again
      gives the parts back. */
  lemma {:induction false} SplitJoin(parts: seq<string>, d: char)
    requires |parts| >= 1
    requires forall i :: 0 <= i < |parts| ==> d !in parts[i]
    ensures Split(Join(parts, [d]), d) == parts
    decreases |parts|
  {
    if |parts| == 1 {
      SplitNoSeparator(parts[0], d);
    } else {
      SplitJoin(parts[1..], d);
      SplitFirst(parts[0], d, Join(parts[1..], [d]));
      assert parts == [parts[0]] + parts[1..];
    }
  }

  /** Splitting on `d` and joining with `d` gives the text back. */
  lemma {:induction false} JoinSplit(s: string, d: char)
    ensures Join(Split(s, d), [d]) == s
    decreases |s|
  {
    if |s| > 0 {
      var rest := Split(s[1..], d);
      JoinSplit(s[1..], d);
      if s[0] == d {
        assert |[""] + rest| > 1;
        assert ([""] + rest)[1..] == rest;
        assert s == [d] + s[1..];
      } else {
        var parts := [[s[0]] + rest[0]] + rest[1..];
        if |rest| == 1 {
          assert s == [s[0]] + s[1..];
        } else {
          assert parts[1..] == rest[1..];
          assert Join(rest, [d]) == rest[0] + [d] + Join(rest[1..], [d]);
          assert s == [s[0]] + s[1..];
        }
      }
    }
  }

  // --------------------------------------------------------------- numbers

  function DigitChar(d: nat): char
    requires d < 10
  {
    "0123456789"[d]
  }

  /** `n.toString()` for a non-negative integer. */
  function NatToString(n: nat): (s: string)
    ensures |s| >= 1
    ensures forall i :: 0 <= i < |s| ==> '0' <= s[i] <= '9'
    decreases n
  {
    if n < 10 then [DigitChar(n)] else NatToString(n / 10) + [DigitChar(n % 10)]
  }

  lemma DigitCharValue(d: nat)
    requires d < 10
    ensures IsDigit(DigitChar(d)) && DigitValue(DigitChar(d)) == d
  {
    assert "0123456789"[d] == (d + '0' as int) as char;
  }

  /** Reading back the decimal text of `n` gives `n`. */
  lemma {:induction false} NatToStringValue(n: nat)
    ensures DigitsValue(NatToString(n)) == n
    decreases n
  {
    var s := NatToString(n);
    if n < 10 {
      DigitCharValue(n);
      assert s[..0] == [];
    } else {
      NatToStringValue(n / 10);
      DigitCharValue(n % 10);
      assert s[..|s| - 1] == NatToString(n / 10);
    }
  }

  function Zeros(k: nat): (z: string)
    ensures |z| == k && forall i :: 0 <= i < k ==> z[i] == '0'
  {
    seq(k, _ => '0')
  }

  /** Leading zeros do not change the value of a digit string. */
  lemma {:induction false} LeadingZeros(k: nat, s: string)
    requires forall i :: 0 <= i < |s| ==> IsDigit(s[i])
    ensures forall i :: 0 <= i < k + |s| ==> IsDigit((Zeros(k) + s)[i])
    ensures DigitsValue(Zeros(k) + s) == DigitsValue(s)
    decreases |s|, k
  {
    var z := Zeros(k);
    if |s| > 0 {
      LeadingZeros(k, s[..|s| - 1]);
      assert (z + s)[..|z + s| - 1] == z + s[..|s| - 1];
    } else if k > 0 {
      assert z + s == z;
      LeadingZeros(k - 1, s);
      assert z[..k - 1] == Zeros(k - 1) + s;
    }
  }

  /** A number below `10^k` (`k >= 1`) has at most `k` decimal digits. */
  lemma {:induction false} NatToStringShort(n: nat, k: nat)
    requires 1 <= k && n < Pow10(k)
    ensures |NatToString(n)| <= k
    decreases k
  {
    if n >= 10 {
      assert k >= 2;
      NatToStringShort(n / 10, k - 1);
    }
  }

  /** A number of at least `10^(k-1)` has at least `k` decimal digits. */
  lemma {:induction false} NatToStringLong(n: nat, k: nat)
    requires 1 <= k && Pow10(k - 1) <= n
    ensures |NatToString(n)| >= k
    decreases k
  {
    if k > 1 {
      assert n >= 10;
      NatToStringLong(n / 10, k - 1);
    }
  }

  /** Reading a concatenation of digit strings. */
  lemma {:induction false} DigitsValueAppend(a: string, b: string)
    requires forall i :: 0 <= i < |a| ==> IsDigit(a[i])
    requires forall i :: 0 <= i < |b| ==> IsDigit(b[i])
    ensures forall i :: 0 <= i < |a + b| ==> IsDigit((a + b)[i])
    ensures DigitsValue(a + b) == DigitsValue(a) * Pow10(|b|) + DigitsValue(b)
    decreases |b|
  {
    if |b| == 0 {
      assert a + b == a;
    } else {
      var b' := b[..|b| - 1];
      DigitsValueAppend(a, b');
      assert (a + b)[..|a + b| - 1] == a + b';
      var va, vb', p' := DigitsValue(a), DigitsValue(b'), Pow10(|b'|);
      var x := va * p' + vb';
      assert DigitsValue(a + b) == x * 10 + DigitValue(b[|b| - 1]);
      ShiftDigit(va, p', vb');
    }
  }

  lemma ShiftDigit(va: nat, p: nat, vb: nat)
    ensures (va * p + vb) * 10 == va * (10 * p) + vb * 10
  {
    assert va * (10 * p) == (va * p) * 10;
  }

  /** `n.toString()` for any integer. */
  function IntToString(n: int): string
  {
    if n < 0 then "-" + NatToString(-n) else NatToString(n)
  }

  /** `s.padStart(width, c)` */
  function PadStart(s: string, width: nat, c: char): (r: string)
    ensures |r| == if |s| >= width then |s| else width
    ensures r[|r| - |s|..] == s
    ensures forall i :: 0 <= i < |r| - |s| ==> r[i] == c
  {
    if |s| >= width then s else seq(width - |s|, _ => c) + s
  }

  predicate IsDigit(c: char)
  {
    '0' <= c <= '9'
  }

  function DigitValue(c: char): nat
    requires IsDigit(c)
  {
    c as int - '0' as int
  }

  /** The length of the longest prefix of `s` made of decimal digits. */
  function DigitRun(s: string): (n: nat)
    ensures n <= |s|
    ensures forall i :: 0 <= i < n ==> IsDigit(s[i])
    ensures n < |s| ==> !IsDigit(s[n])
    decreases |s|
  {
    if |s| > 0 && IsDigit(s[0]) then 1 + DigitRun(s[1..]) else 0
  }

  /** The value of a string of decimal digits (`""` is 0). */
  function DigitsValue(s: string): nat
    requires forall i :: 0 <= i < |s| ==> IsDigit(s[i])
    decreases |s|
  {
    if |s| == 0 then 0 else DigitsValue(s[..|s| - 1]) * 10 + DigitValue(s[|s| - 1])
  }

  function Pow10(k: nat): (p: nat)
    ensures p >= 1
  {
    if k == 0 then 1 else 10 * Pow10(k - 1)
  }

  /** `parseFloat(s)`: after leading spaces, an optional sign, digits with an
      optional fraction and an optional exponent; whatever follows the longest
      such prefix is ignored. `None` stands for `NaN`. The result is the exact
      rational the decimal text denotes. */
  function ParseFloat(s: string): (r: Option<real>)
  {
    var t := TrimStart(s);
    if |t| > 0 && t[0] == '-' then
      match ParseUnsigned(t[1..])
      case Some(x) => Some(-x)
      case None => None
    else if |t| > 0 && t[0] == '+' then ParseUnsigned(t[1..])
    else ParseUnsigned(t)
  }

  /** A decimal literal without sign at the start of `u`. */
  function ParseUnsigned(u: string): (r: Option<real>)
  {
    var ni := DigitRun(u);
    if ni < |u| && u[ni] == '.' then ParseFraction(u[..ni], u[ni + 1..])
    else if ni == 0 then None
    else Some(DigitsValue(u[..ni]) as real * ExponentScale(u[ni..]))
  }

  /** The literal `intPart.rest...` where `intPart` is all digits. */
  function ParseFraction(intPart: string, rest: string): (r: Option<real>)
    requires forall i :: 0 <= i < |intPart| ==> IsDigit(intPart[i])
  {
    var nf := DigitRun(rest);
    if |intPart| == 0 && nf == 0 then None
    else
      var mant := DigitsValue(intPart) as real + DigitsValue(rest[..nf]) as real / Pow10(nf) as real;
      Some(mant * ExponentScale(rest[nf..]))
  }

  /** The factor an exponent suffix `e[+-]digits` contributes (1 if none). */
  function ExponentScale(s: string): (f: real)
    ensures f > 0.0
  {
    if |s| >= 2 && (s[0] == 'e' || s[0] == 'E') then
      var neg := s[1] == '-';
      var v := if s[1] == '-' || s[1] == '+' then s[2..] else s[1..];
      var n := DigitRun(v);
      if n == 0 then 1.0
      else if neg then 1.0 / Pow10(DigitsValue(v[..n])) as real
      else Pow10(DigitsValue(v[..n])) as real
    else 1.0
  }

  /** A plain digit string parses to its integer value. */
  lemma {:induction false} ParseDigits(s: string)
    requires |s| > 0 && forall i :: 0 <= i < |s| ==> IsDigit(s[i])
    ensures ParseFloat(s) == Some(DigitsValue(s) as real)
  {
    assert TrimStart(s) == s;
    assert s[0] != '-' && s[0] != '+';
    assert ParseFloat(s) == ParseUnsigned(s);
    DigitRunAll(s);
    assert s[..|s|] == s;
    var e := ExponentScale(s[|s|..]);
    assert e == 1.0 by { assert s[|s|..] == []; }
    var ni := DigitRun(s);
    assert ni == |s|;
    assert ParseUnsigned(s) == Some(DigitsValue(s[..ni]) as real * e);
  }

  lemma {:induction false} DigitRunAll(s: string)
    requires forall i :: 0 <= i < |s| ==> IsDigit(s[i])
    ensures DigitRun(s) == |s|
    decreases |s|
  {
    if |s| > 0 {
      DigitRunAll(s[1..]);
    }
  }

  /** Text with no digit at all is `NaN`. */
  lemma {:induction false} ParseNoDigits(s: string)
    requires forall i :: 0 <= i < |s| ==> !IsDigit(s[i])
    ensures ParseFloat(s).None?
  {
    var t := TrimStart(s);
    TrimStartSuffix(s);
    assert forall i :: 0 <= i < |t| ==> !IsDigit(t[i]);
    NoDigitsUnsigned(t);
    if |t| > 0 {
      assert forall i :: 0 <= i < |t[1..]| ==> !IsDigit(t[1..][i]);
      NoDigitsUnsigned(t[1..]);
    }
  }

  lemma {:induction false} NoDigitsUnsigned(u: string)
    requires forall i :: 0 <= i < |u| ==> !IsDigit(u[i])
    ensures ParseUnsigned(u).None?
  {
    assert DigitRun(u) == 0;
    if 0 < |u| && u[0] == '.' {
      var rest := u[1..];
      assert |rest| > 0 ==> !IsDigit(rest[0]);
      assert DigitRun(rest) == 0;
    }
  }
}

/** Shared vocabulary: an optional value, the JavaScript array operations the
    tracker uses (filter, count-by-filter, sort by a numeric key), and the few
    string operations it performs (ASCII lower-casing, substring search,
    whitespace trimming, decimal rendering of a timestamp). */
module Common {

  datatype Option<T> = None | Some(value: T) {
    function GetOr(default: T): T {
      if Some? then value else default
    }
  }

  // ---------------------------------------------------------------------------
  // Array.prototype.filter and counting

  /** The elements of `s` that satisfy `p`, in their original order. */
  function Filter<T(==,!new)>(s: seq<T>, p: T -> bool): (r: seq<T>)
    ensures |r| <= |s|
    ensures forall x :: x in r <==> x in s && p(x)
    ensures forall k :: 0 <= k < |r| ==> p(r[k])
    ensures multiset(r) <= multiset(s)
  {
    if s == [] then []
    else
      assert s == [s[0]] + s[1..];
      if p(s[0]) then [s[0]] + Filter(s[1..], p)
      else Filter(s[1..], p)
  }

  /** `r` is `s` with some elements left out and the rest kept in order. */
  predicate IsSubsequence<T(==)>(r: seq<T>, s: seq<T>)
    decreases |s|
  {
    if r == [] then true
    else if s == [] then false
    else (r[0] == s[0] && IsSubsequence(r[1..], s[1..])) || IsSubsequence(r, s[1..])
  }

  lemma {:induction false} FilterIsSubsequence<T(!new)>(s: seq<T>, p: T -> bool)
    ensures IsSubsequence(Filter(s, p), s)
    decreases |s|
  {
    if s != [] {
      FilterIsSubsequence(s[1..], p);
      if p(s[0]) {
        assert Filter(s, p)[1..] == Filter(s[1..], p);
      }
    }
  }

  /** A predicate that holds for every element keeps the whole sequence. */
  lemma {:induction false} FilterAll<T(!new)>(s: seq<T>, p: T -> bool)
    requires forall x :: x in s ==> p(x)
    ensures Filter(s, p) == s
  {
    if s != [] {
      var t := s[1..];
      assert s == [s[0]] + t;
      forall x | x in t ensures p(x) {
        assert x in s;
      }
      FilterAll(t, p);
      assert p(s[0]);
      calc {
        Filter(s, p);
        [s[0]] + Filter(t, p);
        [s[0]] + t;
      }
    }
  }

  /** Filtering a concatenation filters each part. */
  lemma {:induction false} FilterConcat<T(!new)>(a: seq<T>, b: seq<T>, p: T -> bool)
    ensures Filter(a + b, p) == Filter(a, p) + Filter(b, p)
  {
    if a != [] {
      var ab := a + b;
      assert ab[0] == a[0];
      assert ab[1..] == a[1..] + b;
      FilterConcat(a[1..], b, p);
      if p(a[0]) {
        calc {
          Filter(ab, p);
          [a[0]] + Filter(a[1..] + b, p);
          [a[0]] + (Filter(a[1..], p) + Filter(b, p));
          ([a[0]] + Filter(a[1..], p)) + Filter(b, p);
          Filter(a, p) + Filter(b, p);
        }
      } else {
        calc {
          Filter(ab, p);
          Filter(a[1..] + b, p);
          Filter(a[1..], p) + Filter(b, p);
          Filter(a, p) + Filter(b, p);
        }
      }
    } else {
      assert a + b == b;
    }
  }

  /** Two tests that agree on every element keep the same elements. */
  lemma {:induction false} FilterSameTest<T(!new)>(s: seq<T>, p: T -> bool, q: T -> bool)
    requires forall x :: p(x) == q(x)
    ensures Filter(s, p) == Filter(s, q)
  {
    if s != [] {
      FilterSameTest(s[1..], p, q);
    }
  }

  /** A filter that drops some element is shorter than its input. */
  lemma {:induction false} FilterDrops<T(!new)>(s: seq<T>, p: T -> bool, x: T)
    requires x in s && !p(x)
    ensures |Filter(s, p)| < |s|
  {
    if s[0] != x {
      FilterDrops(s[1..], p, x);
    }
  }

  /** `xs.filter(p).length`. */
  function Count<T(==,!new)>(s: seq<T>, p: T -> bool): (n: nat)
    ensures n <= |s|
    ensures n == |Filter(s, p)|
  {
    if s == [] then 0 else (if p(s[0]) then 1 else 0) + Count(s[1..], p)
  }

  lemma CountHead<T(!new)>(s: seq<T>, p: T -> bool)
    requires s != []
    ensures Count(s, p) == (if p(s[0]) then 1 else 0) + Count(s[1..], p)
  {
  }

  /** Counting with a predicate that is the disjoint union of two others adds up. */
  lemma {:induction false} CountDisjointUnion<T(!new)>(s: seq<T>, p: T -> bool, q: T -> bool, r: T -> bool)
    requires forall x :: p(x) == (q(x) || r(x))
    requires forall x :: !(q(x) && r(x))
    ensures Count(s, p) == Count(s, q) + Count(s, r)
  {
    if s != [] {
      CountDisjointUnion(s[1..], p, q, r);
    }
  }

  /** A weaker predicate never counts fewer elements. */
  lemma {:induction false} CountMonotone<T(!new)>(s: seq<T>, q: T -> bool, p: T -> bool)
    requires forall x :: q(x) ==> p(x)
    ensures Count(s, q) <= Count(s, p)
  {
    if s != [] {
      CountMonotone(s[1..], q, p);
    }
  }

  /** A predicate that holds everywhere counts every element. */
  lemma {:induction false} CountTrue<T(!new)>(s: seq<T>, p: T -> bool)
    requires forall x :: p(x)
    ensures Count(s, p) == |s|
  {
    if s != [] {
      CountTrue(s[1..], p);
    }
  }

  /** Counting a sequence extended by one element. */
  lemma {:induction false} CountSnoc<T(!new)>(s: seq<T>, x: T, p: T -> bool)
    ensures Count(s + [x], p) == Count(s, p) + (if p(x) then 1 else 0)
  {
    if s == [] {
      assert [] + [x] == [x];
    } else {
      assert (s + [x])[1..] == s[1..] + [x];
      CountSnoc(s[1..], x, p);
    }
  }

  /** The position of the first element satisfying `p`, if any. */
  function FindIndex<T>(s: seq<T>, p: T -> bool): (r: Option<nat>)
    ensures r.Some? ==> r.value < |s| && p(s[r.value])
    ensures r.Some? ==> forall k :: 0 <= k < r.value ==> !p(s[k])
    ensures r.None? <==> forall k :: 0 <= k < |s| ==> !p(s[k])
  {
    if s == [] then None
    else if p(s[0]) then Some(0)
    else
      var r := FindIndex(s[1..], p);
      assert forall k :: 1 <= k < |s| ==> s[k] == s[1..][k - 1];
      if r.None? then None else Some(r.value + 1)
  }

  /** Keys strictly increase along the sequence, so no two elements share one:
      the shape of a collection whose identifiers are handed out in order. */
  ghost predicate KeysIncreasing<T>(s: seq<T>, key: T -> int) {
    forall j, k :: 0 <= j < k < |s| ==> key(s[j]) < key(s[k])
  }

  lemma PrependKeepsKeysIncreasing<T>(x: T, t: seq<T>, key: T -> int)
    requires KeysIncreasing(t, key)
    requires forall y :: y in t ==> key(x) < key(y)
    ensures KeysIncreasing([x] + t, key)
  {
    var r := [x] + t;
    forall j, k | 0 <= j < k < |r|
      ensures key(r[j]) < key(r[k])
    {
      assert r[k] == t[k - 1];
      if j > 0 {
        assert r[j] == t[j - 1];
      }
    }
  }

  /** Removing elements keeps the keys increasing. */
  lemma {:induction false} FilterKeepsKeysIncreasing<T(!new)>(s: seq<T>, p: T -> bool, key: T -> int)
    requires KeysIncreasing(s, key)
    ensures KeysIncreasing(Filter(s, p), key)
    decreases |s|
  {
    if s != [] {
      var rest := s[1..];
      FilterKeepsKeysIncreasing(rest, p, key);
      var t := Filter(rest, p);
      forall x | x in t
        ensures key(s[0]) < key(x)
      {
        var m :| 0 <= m < |rest| && rest[m] == x;
        assert s[m + 1] == x;
      }
      if p(s[0]) {
        PrependKeepsKeysIncreasing(s[0], t, key);
      }
    }
  }

  // ---------------------------------------------------------------------------
  // Sorting by a numeric key, largest key first

  /** Each element's key is at least the next one's. */
  ghost predicate SortedDesc<T>(s: seq<T>, key: T -> int) {
    forall k :: 0 <= k < |s| - 1 ==> key(s[k]) >= key(s[k + 1])
  }

  /** Sorted neighbours give a sorted sequence: every earlier key is at least
      every later one. */
  lemma {:induction false} SortedDescPairwise<T>(s: seq<T>, key: T -> int, j: nat, k: nat)
    requires SortedDesc(s, key)
    requires j <= k < |s|
    ensures key(s[j]) >= key(s[k])
    decreases k - j
  {
    if j < k {
      SortedDescPairwise(s, key, j + 1, k);
    }
  }

  /** The tail of a sorted sequence is sorted. */
  lemma SortedDescTail<T>(s: seq<T>, key: T -> int)
    requires s != [] && SortedDesc(s, key)
    ensures SortedDesc(s[1..], key)
  {
    var t := s[1..];
    forall k | 0 <= k < |t| - 1 ensures key(t[k]) >= key(t[k + 1]) {
      assert t[k] == s[k + 1] && t[k + 1] == s[k + 2];
    }
  }

  /** An element whose key is at least the first key can go in front. */
  lemma PrependSortedDesc<T>(y: T, t: seq<T>, key: T -> int)
    requires SortedDesc(t, key)
    requires t == [] || key(y) >= key(t[0])
    ensures SortedDesc([y] + t, key)
  {
    var u := [y] + t;
    forall k | 0 <= k < |u| - 1 ensures key(u[k]) >= key(u[k + 1]) {
      if k > 0 {
        assert u[k] == t[k - 1] && u[k + 1] == t[k];
      }
    }
  }

  lemma MultisetCons<T>(s: seq<T>)
    requires s != []
    ensures multiset(s) == multiset{s[0]} + multiset(s[1..])
  {
    assert s == [s[0]] + s[1..];
  }

  function InsertDesc<T(==,!new)>(x: T, s: seq<T>, key: T -> int): (r: seq<T>)
    requires SortedDesc(s, key)
    ensures |r| == |s| + 1
    ensures multiset(r) == multiset(s) + multiset{x}
    ensures SortedDesc(r, key)
    ensures r[0] == x || (s != [] && r[0] == s[0])
  {
    if s == [] then [x]
    else if key(s[0]) <= key(x) then
      PrependSortedDesc(x, s, key);
      [x] + s
    else
      SortedDescTail(s, key);
      var rest := InsertDesc(x, s[1..], key);
      assert key(rest[0]) <= key(s[0]) by {
        if rest[0] != x {
          assert rest[0] == s[1];
        }
      }
      PrependSortedDesc(s[0], rest, key);
      MultisetCons(s);
      MultisetCons([s[0]] + rest);
      assert ([s[0]] + rest)[1..] == rest;
      [s[0]] + rest
  }

  /** An insertion sort, largest key first; the model of
      `xs.sort((a, b) => key(b) - key(a))` and of a query sorted `{ key: -1 }`. */
  function SortDesc<T(==,!new)>(s: seq<T>, key: T -> int): (r: seq<T>)
    ensures |r| == |s|
    ensures multiset(r) == multiset(s)
    ensures SortedDesc(r, key)
  {
    if s == [] then []
    else
      assert s == [s[0]] + s[1..];
      InsertDesc(s[0], SortDesc(s[1..], key), key)
  }

  lemma SortDescSameElements<T(!new)>(s: seq<T>, key: T -> int)
    ensures forall x :: x in SortDesc(s, key) <==> x in s
  {
    var r := SortDesc(s, key);
    forall x ensures x in r <==> x in s {
      assert x in r <==> x in multiset(r);
      assert x in s <==> x in multiset(s);
    }
  }

  function Min(a: int, b: int): int { if a <= b then a else b }

  // ---------------------------------------------------------------------------
  // Strings (ASCII only; JavaScript's Unicode case mapping is not modelled)

  function LowerChar(c: char): char {
    if 'A' <= c <= 'Z' then (c as int + 32) as char else c
  }

  /** `s.toLowerCase()` over ASCII. */
  function Lower(s: string): (r: string)
    ensures |r| == |s|
    ensures forall k :: 0 <= k < |s| ==> r[k] == LowerChar(s[k])
  {
    if s == [] then [] else [LowerChar(s[0])] + Lower(s[1..])
  }

  /** The code units a character takes in UTF-16: two for a character
      outside the Basic Multilingual Plane, one otherwise. */
  function Utf16Units(c: char): nat {
    if c as int >= 0x1_0000 then 2 else 1
  }

  /** `s.length`: the number of UTF-16 code units of `s`. */
  function Utf16Length(s: string): (n: nat)
    ensures |s| <= n <= 2 * |s|
    ensures (forall k :: 0 <= k < |s| ==> s[k] as int < 0x1_0000) ==> n == |s|
  {
    if s == [] then 0 else Utf16Units(s[0]) + Utf16Length(s[1..])
  }

  /** `text.includes(pat)`: `pat` occurs in `text` at some offset. */
  predicate Contains(text: string, pat: string)
    decreases |text|
  {
    pat <= text || (text != [] && Contains(text[1..], pat))
  }

  /** `text.toLowerCase().includes(pat.toLowerCase())`. */
  predicate ContainsIgnoringCase(text: string, pat: string) {
    Contains(Lower(text), Lower(pat))
  }

  /** Lower-casing twice is lower-casing once. */
  lemma LowerIdempotent(s: string)
    ensures Lower(Lower(s)) == Lower(s)
  {
    assert forall k :: 0 <= k < |s| ==> LowerChar(LowerChar(s[k])) == LowerChar(s[k]);
  }

  lemma {:induction false} ContainsAt(text: string, pat: string, k: nat)
    requires k + |pat| <= |text| && text[k..k + |pat|] == pat
    ensures Contains(text, pat)
    decreases k
  {
    if k > 0 {
      assert text[1..][k - 1..k - 1 + |pat|] == pat;
      ContainsAt(text[1..], pat, k - 1);
    } else {
      assert pat <= text;
    }
  }

  lemma {:induction false} ContainsWitness(text: string, pat: string) returns (k: nat)
    requires Contains(text, pat)
    ensures k + |pat| <= |text| && text[k..k + |pat|] == pat
    decreases |text|
  {
    if pat <= text {
      k := 0;
    } else {
      var j := ContainsWitness(text[1..], pat);
      k := j + 1;
      assert text[k..k + |pat|] == text[1..][j..j + |pat|];
    }
  }

  /** The characters `String.prototype.trim` removes that the model knows of. */
  predicate IsSpace(c: char) {
    c == ' ' || c == '\t' || c == '\n' || c == '\r' || c == '\U{000B}' || c == '\U{000C}'
    || c == '\U{00A0}' || c == '\U{FEFF}'
  }

  function TrimStart(s: string): (r: string)
    ensures |r| <= |s| && r == s[|s| - |r|..]
    ensures r != [] ==> !IsSpace(r[0])
    ensures forall k :: 0 <= k < |s| - |r| ==> IsSpace(s[k])
  {
    if s == [] then [] else if IsSpace(s[0]) then TrimStart(s[1..]) else s
  }

  function TrimEnd(s: string): (r: string)
    ensures |r| <= |s| && r == s[..|r|]
    ensures r != [] ==> !IsSpace(r[|r| - 1])
    ensures forall k :: |r| <= k < |s| ==> IsSpace(s[k])
  {
    if s == [] then [] else if IsSpace(s[|s| - 1]) then TrimEnd(s[..|s| - 1]) else s
  }

  /** `s.trim()`. */
  function Trim(s: string): string {
    TrimEnd(TrimStart(s))
  }

  /** `!s.trim()`: after trimming nothing is left exactly when every character
      is white space. */
  lemma TrimEmptyIffBlank(s: string)
    ensures Trim(s) == [] <==> forall k :: 0 <= k < |s| ==> IsSpace(s[k])
  {
    var t := TrimStart(s);
    if Trim(s) == [] {
      assert t == [];
    } else {
      var r := Trim(s);
      assert r == t[..|r|];
      assert !IsSpace(t[0]);
      assert s[|s| - |t|] == t[0];
    }
  }

  function DigitChar(d: nat): char
    requires d < 10
  {
    ('0' as int + d) as char
  }

  /** `n.toString()` for a non-negative integer. */
  function NatToString(n: nat): (r: string)
    ensures |r| >= 1
    ensures forall k :: 0 <= k < |r| ==> '0' <= r[k] <= '9'
  {
    if n < 10 then [DigitChar(n)] else NatToString(n / 10) + [DigitChar(n % 10)]
  }
}

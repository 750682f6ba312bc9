/** Helpers shared by the models: JavaScript's rounding and string primitives
    stated on exact integers, and generic sequence operations (`filter`,
    `find`, `slice`). */
module Common {

  datatype Option<T> = None | Some(value: T)

  /** The languages the routes accept (`isIn` on `language`). */
  const SupportedLanguages: set<string> :=
    {"Spanish", "French", "German", "Italian", "Portuguese", "Chinese", "Japanese", "Korean", "Arabic"}

  /** The levels the routes accept (`isIn` on `level`). */
  const LevelNames: set<string> := {"beginner", "intermediate", "advanced"}

  function Max(a: int, b: int): int { if a >= b then a else b }

  function Min(a: int, b: int): int { if a <= b then a else b }

  /** `Math.round(a / b)` for a positive divisor: the integer nearest to a/b,
      halves rounded towards +infinity. */
  function RoundDiv(a: int, b: int): (r: int)
    requires b > 0
    ensures 2 * b * r - b <= 2 * a < 2 * b * r + b
  {
    var q := (2 * a + b) / (2 * b);
    assert 2 * a + b == 2 * b * q + (2 * a + b) % (2 * b);
    q
  }

  /** `Math.ceil(a / b)` for a positive divisor. */
  function CeilDiv(a: int, b: int): (r: int)
    requires b > 0
    ensures b * (r - 1) < a <= b * r
  {
    var q := (a + b - 1) / b;
    assert a + b - 1 == b * q + (a + b - 1) % b;
    q
  }

  /** `((part / total) * 100).toFixed(2)` read back as a number, counted in
      hundredths of a percent (so 80.00 is 8000); 0 when `total` is 0, as the
      virtuals that compute it return. */
  function PercentHundredths(part: nat, total: nat): (r: int)
    ensures total == 0 ==> r == 0
    ensures total > 0 ==> 2 * total * r - total <= 20000 * part < 2 * total * r + total
    ensures part <= total ==> 0 <= r <= 10000
  {
    if total == 0 then 0
    else
      var r := RoundDiv(10000 * part, total);
      if part <= total then
        RoundDivWithin(10000 * part, total, 0, 10000);
        r
      else r
  }

  /** Rounding a quotient that lies between two integers stays between
      them. */
  lemma RoundDivWithin(a: int, b: int, lo: int, hi: int)
    requires b > 0 && b * lo <= a <= b * hi
    ensures lo <= RoundDiv(a, b) <= hi
  {
    var r := RoundDiv(a, b);
    assert b * lo < b * (r + 1) by {
      assert b * (r + 1) == b * r + b;
    }
    MulLtCancel(b, lo, r + 1);
    assert b * r < b * (hi + 1) by {
      assert b * (hi + 1) == b * hi + b;
    }
    MulLtCancel(b, r, hi + 1);
  }

  lemma MulLtCancel(b: int, x: int, y: int)
    requires b > 0 && b * x < b * y
    ensures x < y
  {
  }

  lemma PositiveFactor(b: int, k: int)
    requires b > 0 && b * k > 0
    ensures k > 0
  {
  }

  /** The characters JavaScript's `\s` and `String.prototype.trim` treat as
      white space (WhiteSpace and LineTerminator of ECMA-262). */
  predicate IsJsSpace(c: char)
  {
    || c == '\t' || c == '\n' || c == '\U{000B}' || c == '\U{000C}' || c == '\r'
    || c == ' ' || c == '\U{00A0}' || c == '\U{1680}'
    || ('\U{2000}' <= c <= '\U{200A}')
    || c == '\U{2028}' || c == '\U{2029}' || c == '\U{202F}' || c == '\U{205F}'
    || c == '\U{3000}' || c == '\U{FEFF}'
  }

  /** `!s.trim()`: the string is empty once white space is trimmed. */
  predicate BlankAfterTrim(s: string)
  {
    forall i :: 0 <= i < |s| ==> IsJsSpace(s[i])
  }

  /** `toLowerCase` on the ASCII letters. */
  function LowerChar(c: char): (d: char)
    ensures 'A' <= c <= 'Z' ==> 'a' <= d <= 'z'
    ensures !('A' <= c <= 'Z') ==> d == c
  {
    if 'A' <= c <= 'Z' then (c as int + 32) as char else c
  }

  function Lower(s: string): (r: string)
    ensures |r| == |s|
    ensures forall i :: 0 <= i < |s| ==> r[i] == LowerChar(s[i])
  {
    if s == [] then [] else [LowerChar(s[0])] + Lower(s[1..])
  }

  predicate IsPrefix<T(==)>(p: seq<T>, s: seq<T>)
  {
    |p| <= |s| && p == s[..|p|]
  }

  /** `s.includes(sub)`: `sub` occurs in `s` as a contiguous block. */
  predicate Contains<T(==)>(s: seq<T>, sub: seq<T>)
    decreases |s|
  {
    IsPrefix(sub, s) || (|s| > 0 && Contains(s[1..], sub))
  }

  lemma {:induction false} ContainsAt<T>(s: seq<T>, sub: seq<T>, k: nat)
    requires k + |sub| <= |s| && s[k..k + |sub|] == sub
    ensures Contains(s, sub)
    decreases k
  {
    if k > 0 {
      assert s[1..][k - 1..k - 1 + |sub|] == s[k..k + |sub|];
      ContainsAt(s[1..], sub, k - 1);
    }
  }

  /** The elements of `r` appear in `s` in the same order (not necessarily
      contiguously). */
  predicate IsSubsequence<T(==)>(r: seq<T>, s: seq<T>)
    decreases |s|
  {
    if r == [] then true
    else if s == [] then false
    else if r[0] == s[0] then IsSubsequence(r[1..], s[1..])
    else IsSubsequence(r, s[1..])
  }

  lemma {:induction false} SubsequenceMembers<T>(r: seq<T>, s: seq<T>)
    requires IsSubsequence(r, s)
    ensures |r| <= |s|
    ensures forall x :: x in r ==> x in s
    decreases |s|
  {
    if r != [] && s != [] {
      if r[0] == s[0] {
        SubsequenceMembers(r[1..], s[1..]);
        assert r == [r[0]] + r[1..];
        assert s == [s[0]] + s[1..];
      } else {
        SubsequenceMembers(r, s[1..]);
        assert s == [s[0]] + s[1..];
      }
    }
  }

  lemma {:induction false} SubsequenceOfSelf<T>(s: seq<T>)
    ensures IsSubsequence(s, s)
    decreases |s|
  {
    if s != [] { SubsequenceOfSelf(s[1..]); }
  }

  /** `Array.prototype.filter`. */
  function Filter<T(!new)>(s: seq<T>, p: T -> bool): (r: seq<T>)
    ensures |r| <= |s|
    ensures forall i :: 0 <= i < |r| ==> p(r[i])
    ensures forall x :: x in s && p(x) ==> x in r
    ensures forall x :: x in r ==> x in s
    ensures (forall x :: x in s ==> p(x)) ==> r == s
    decreases |s|
  {
    if s == [] then []
    else if p(s[0]) then [s[0]] + Filter(s[1..], p)
    else Filter(s[1..], p)
  }

  /** `filter` never adds copies: each element occurs in the result at most
      as often as in the input. */
  lemma {:induction false} FilterMultiset<T(!new)>(s: seq<T>, p: T -> bool)
    ensures multiset(Filter(s, p)) <= multiset(s)
    decreases |s|
  {
    if s != [] {
      FilterMultiset(s[1..], p);
      assert s == [s[0]] + s[1..];
    }
  }

  lemma {:induction false} FilterIsSubsequence<T(!new)>(s: seq<T>, p: T -> bool)
    ensures IsSubsequence(Filter(s, p), s)
    decreases |s|
  {
    if s != [] {
      FilterIsSubsequence(s[1..], p);
      if !p(s[0]) {
        var r := Filter(s[1..], p);
        if r != [] {
          SubsequenceMembers(r, s[1..]);
          SubsequenceSkip(r, s);
        }
      }
    }
  }

  /** Dropping a leading element that the subsequence does not start with. */
  lemma {:induction false} SubsequenceSkip<T>(r: seq<T>, s: seq<T>)
    requires s != [] && IsSubsequence(r, s[1..])
    ensures IsSubsequence(r, s)
    decreases |s|, 0
  {
    if r != [] && r[0] == s[0] {
      // r[1..] is a subsequence of s[1..] because r is
      SubsequenceTail(r, s[1..]);
    }
  }

  lemma {:induction false} SubsequenceTail<T>(r: seq<T>, s: seq<T>)
    requires r != [] && IsSubsequence(r, s)
    ensures IsSubsequence(r[1..], s)
    decreases |s|, 1
  {
    if s != [] {
      if r[0] == s[0] {
        SubsequenceSkip(r[1..], s);
      } else {
        SubsequenceTail(r, s[1..]);
        SubsequenceSkip(r[1..], s);
      }
    }
  }

  lemma {:induction false} FilterAppend<T(!new)>(a: seq<T>, b: seq<T>, p: T -> bool)
    ensures Filter(a + b, p) == Filter(a, p) + Filter(b, p)
    decreases |a|
  {
    if a == [] {
      assert a + b == b;
    } else {
      assert (a + b)[1..] == a[1..] + b;
      FilterAppend(a[1..], b, p);
    }
  }

  /** `Array.prototype.findIndex` as an option: the first index whose element
      satisfies `p`. */
  function FindFirst<T>(s: seq<T>, p: T -> bool): (r: Option<nat>)
    ensures r.None? <==> forall i :: 0 <= i < |s| ==> !p(s[i])
    ensures r.Some? ==> r.value < |s| && p(s[r.value])
                        && forall i :: 0 <= i < r.value ==> !p(s[i])
    decreases |s|
  {
    if s == [] then None
    else if p(s[0]) then Some(0)
    else match FindFirst(s[1..], p)
      case None => None
      case Some(k) => Some(k + 1)
  }

  /** `s.slice(lo, hi)` for non-negative bounds, clamped to the length. */
  function Slice<T>(s: seq<T>, lo: nat, hi: nat): (r: seq<T>)
    ensures |r| == Max(0, Min(hi, |s|) - Min(lo, |s|))
    ensures forall i :: 0 <= i < |r| ==> r[i] == s[lo + i]
  {
    var a := Min(lo, |s|);
    var b := Max(a, Min(hi, |s|));
    s[a..b]
  }

  /** The last `n` elements (all of them when there are fewer), as
      `s.slice(-n)` for n > 0. */
  function LastN<T>(s: seq<T>, n: nat): (r: seq<T>)
    ensures |r| == Min(n, |s|)
    ensures forall i :: 0 <= i < |r| ==> r[i] == s[|s| - |r| + i]
  {
    if |s| <= n then s else s[|s| - n..]
  }

  /** No element occurs twice. */
  predicate NoDuplicates<T(==)>(s: seq<T>)
  {
    forall i, j :: 0 <= i < j < |s| ==> s[i] != s[j]
  }

  /** `[...new Set(s)]`: the first occurrence of every element, in order. */
  function Dedup<T(==,!new)>(s: seq<T>): (r: seq<T>)
    ensures NoDuplicates(r)
    ensures forall x :: x in r <==> x in s
    ensures |r| <= |s|
    decreases |s|
  {
    DedupAfter(s, [])
  }

  /** The elements of `s` that are not in `seen`, each once, in order of first
      occurrence. */
  function DedupAfter<T(==,!new)>(s: seq<T>, seen: seq<T>): (r: seq<T>)
    ensures NoDuplicates(r)
    ensures forall x :: x in r <==> x in s && x !in seen
    ensures |r| <= |s|
    decreases |s|
  {
    if s == [] then []
    else if s[0] in seen then DedupAfter(s[1..], seen)
    else
      var rest := DedupAfter(s[1..], seen + [s[0]]);
      assert s[0] in seen + [s[0]];
      assert s[0] !in rest;
      assert s == [s[0]] + s[1..];
      [s[0]] + rest
  }

  /** Appending a duplicate-free list to a prefix whose elements are all
      `seen` is what `[...new Set(prior.concat(s))]` does when `prior` has no
      duplicates. */
  lemma {:induction false} DedupKeepsDistinctPrefix<T(!new)>(prior: seq<T>, extra: seq<T>)
    requires NoDuplicates(prior)
    ensures Dedup(prior + extra) == prior + DedupAfter(extra, prior)
  {
    DedupPrefix(prior, extra, []);
    assert [] + prior == prior;
  }

  lemma {:induction false} DedupPrefix<T(!new)>(prior: seq<T>, extra: seq<T>, seen: seq<T>)
    requires NoDuplicates(prior)
    requires forall x :: x in prior ==> x !in seen
    ensures DedupAfter(prior + extra, seen) == prior + DedupAfter(extra, seen + prior)
    decreases |prior|
  {
    if prior == [] {
      assert prior + extra == extra;
      assert seen + prior == seen;
    } else {
      var h, t := prior[0], prior[1..];
      DedupPrefixTail(prior, seen);
      DedupPrefix(t, extra, seen + [h]);
      DedupPrefixStep(h, t, extra, seen);
      HeadTail(prior);
      AppendAssoc(seen, [h], t);
    }
  }

  /** The tail of the prefix meets the requirements of `DedupPrefix` with the
      head added to `seen`. */
  lemma DedupPrefixTail<T>(prior: seq<T>, seen: seq<T>)
    requires prior != [] && NoDuplicates(prior)
    requires forall x :: x in prior ==> x !in seen
    ensures prior[0] !in seen
    ensures NoDuplicates(prior[1..])
    ensures forall x :: x in prior[1..] ==> x !in seen + [prior[0]]
  {
    NoDuplicatesTail(prior);
    forall x | x in prior[1..] ensures x !in seen + [prior[0]] {
      assert x in prior;
    }
  }

  /** One step of `DedupPrefix`: a new head in front of a tail that is
      already known to be kept. */
  lemma DedupPrefixStep<T(!new)>(h: T, t: seq<T>, extra: seq<T>, seen: seq<T>)
    requires h !in seen
    requires DedupAfter(t + extra, seen + [h]) == t + DedupAfter(extra, seen + [h] + t)
    ensures DedupAfter([h] + t + extra, seen) == [h] + t + DedupAfter(extra, seen + [h] + t)
  {
    assert [h] + t + extra == [h] + (t + extra);
    DedupAfterCons(h, t + extra, seen);
    AppendAssoc([h], t, DedupAfter(extra, seen + [h] + t));
  }

  lemma HeadTail<T>(s: seq<T>)
    requires s != []
    ensures [s[0]] + s[1..] == s
  {
  }

  lemma AppendAssoc<T>(a: seq<T>, b: seq<T>, c: seq<T>)
    ensures a + (b + c) == (a + b) + c
  {
  }

  lemma DedupAfterCons<T(!new)>(h: T, rest: seq<T>, seen: seq<T>)
    requires h !in seen
    ensures DedupAfter([h] + rest, seen) == [h] + DedupAfter(rest, seen + [h])
  {
    assert ([h] + rest)[0] == h;
    assert ([h] + rest)[1..] == rest;
  }

  lemma NoDuplicatesTail<T>(s: seq<T>)
    requires s != [] && NoDuplicates(s)
    ensures NoDuplicates(s[1..]) && s[0] !in s[1..]
  {
    forall i, j | 0 <= i < j < |s[1..]| ensures s[1..][i] != s[1..][j] {
      assert s[1..][i] == s[i + 1] && s[1..][j] == s[j + 1];
    }
    forall k | 0 <= k < |s[1..]| ensures s[1..][k] != s[0] {
      assert s[1..][k] == s[k + 1];
    }
  }

  /** `before` is a strict order: irreflexive and transitive. */
  ghost predicate StrictOrder<T(!new)>(before: (T, T) -> bool)
  {
    && (forall a :: !before(a, a))
    && (forall a, b, c :: before(a, b) && before(b, c) ==> before(a, c))
  }

  /** No element is strictly before one that precedes it. */
  predicate SortedBy<T>(s: seq<T>, before: (T, T) -> bool)
  {
    forall i, j :: 0 <= i < j < |s| ==> !before(s[j], s[i])
  }

  /** Places `x` in front of the first element of `xs` that it is strictly
      before, or at the end when there is none. */
  function InsertBy<T>(xs: seq<T>, x: T, before: (T, T) -> bool): (r: seq<T>)
    ensures multiset(r) == multiset(xs) + multiset{x}
  {
    if xs == [] then [x]
    else if before(x, xs[0]) then [x] + xs
    else
      assert xs == [xs[0]] + xs[1..];
      [xs[0]] + InsertBy(xs[1..], x, before)
  }

  lemma {:induction false} InsertByKeepsSorted<T(!new)>(xs: seq<T>, x: T, before: (T, T) -> bool)
    requires StrictOrder(before) && SortedBy(xs, before)
    ensures SortedBy(InsertBy(xs, x, before), before)
  {
    if xs == [] {
    } else if before(x, xs[0]) {
      forall k | 0 <= k < |xs| ensures !before(xs[k], x) {
        if k > 0 {
          assert !before(xs[k], xs[0]);
        }
      }
      SortedCons(x, xs, before);
    } else {
      SortedTail(xs, before);
      InsertByKeepsSorted(xs[1..], x, before);
      var rest := InsertBy(xs[1..], x, before);
      forall k | 0 <= k < |rest| ensures !before(rest[k], xs[0]) {
        var y := rest[k];
        assert y in multiset(rest);
        if y != x {
          assert y in multiset(xs[1..]);
          var m :| 0 <= m < |xs[1..]| && xs[1..][m] == y;
        }
      }
      SortedCons(xs[0], rest, before);
    }
  }

  /** A head that no later element is strictly before extends a sorted
      sequence. */
  lemma SortedCons<T>(h: T, rest: seq<T>, before: (T, T) -> bool)
    requires SortedBy(rest, before)
    requires forall k :: 0 <= k < |rest| ==> !before(rest[k], h)
    ensures SortedBy([h] + rest, before)
  {
    var r := [h] + rest;
    forall i, j | 0 <= i < j < |r| ensures !before(r[j], r[i]) {
      if i == 0 {
        assert r[j] == rest[j - 1];
      } else {
        assert r[i] == rest[i - 1] && r[j] == rest[j - 1];
      }
    }
  }

  /** The tail of a sorted sequence is sorted and no element of it is strictly
      before the head. */
  lemma SortedTail<T>(xs: seq<T>, before: (T, T) -> bool)
    requires xs != [] && SortedBy(xs, before)
    ensures SortedBy(xs[1..], before)
    ensures forall k :: 0 <= k < |xs[1..]| ==> !before(xs[1..][k], xs[0])
  {
    var tail := xs[1..];
    forall i, j | 0 <= i < j < |tail| ensures !before(tail[j], tail[i]) {
      assert tail[i] == xs[i + 1] && tail[j] == xs[j + 1];
    }
    forall k | 0 <= k < |tail| ensures !before(tail[k], xs[0]) {
      assert tail[k] == xs[k + 1];
    }
  }

  /** `s.sort(compare)` for a comparator that is negative exactly when
      `before` holds, as an insertion sort. */
  function SortBy<T>(s: seq<T>, before: (T, T) -> bool): (r: seq<T>)
    ensures multiset(r) == multiset(s)
    ensures |r| == |s|
  {
    if s == [] then []
    else
      assert s == s[..|s| - 1] + [s[|s| - 1]];
      var r := InsertBy(SortBy(s[..|s| - 1], before), s[|s| - 1], before);
      assert |multiset(r)| == |multiset(s)|;
      r
  }

  lemma {:induction false} SortByIsSorted<T(!new)>(s: seq<T>, before: (T, T) -> bool)
    requires StrictOrder(before)
    ensures SortedBy(SortBy(s, before), before)
  {
    if s != [] {
      SortByIsSorted(s[..|s| - 1], before);
      InsertByKeepsSorted(SortBy(s[..|s| - 1], before), s[|s| - 1], before);
    }
  }

  /** A plain JavaScript object whose fields the model reads as strings. */
  type JsObject = map<string, string>

  /** `{ ...a, ...b }`: the fields of both, those of `b` winning. */
  function Spread(a: JsObject, b: JsObject): (r: JsObject)
    ensures r.Keys == a.Keys + b.Keys
    ensures forall k :: k in b ==> r[k] == b[k]
    ensures forall k :: k in a && k !in b ==> r[k] == a[k]
  {
    a + b
  }

  /** A field of an object, None when it is absent (`undefined`). */
  function Field(o: JsObject, key: string): (r: Option<string>)
    ensures r.Some? <==> key in o
    ensures r.Some? ==> r.value == o[key]
  {
    if key in o then Some(o[key]) else None
  }
}

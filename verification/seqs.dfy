/** Sequence combinators with the meaning of the JavaScript array methods the
    console uses: `filter`, `reduce` (a left fold), `find`/`findIndex`, the
    `map(x => cond ? f(x) : x)` idiom of the store updates, and `slice`. */
module Seqs {
  import opened Options

  /** `s.filter(p)`: the elements satisfying `p`, in their original order. */
  function Filter<T>(s: seq<T>, p: T -> bool): (r: seq<T>)
    ensures |r| <= |s|
    ensures forall i :: 0 <= i < |r| ==> r[i] in s && p(r[i])
    ensures forall i :: 0 <= i < |s| && p(s[i]) ==> s[i] in r
    decreases |s|
  {
    if |s| == 0 then []
    else (if p(s[0]) then [s[0]] else []) + Filter(s[1..], p)
  }

  /** Filtering commutes with concatenation, so it keeps relative order. */
  lemma {:induction false} FilterConcat<T>(s: seq<T>, t: seq<T>, p: T -> bool)
    ensures Filter(s + t, p) == Filter(s, p) + Filter(t, p)
    decreases |s|
  {
    if |s| == 0 {
      assert s + t == t;
    } else {
      assert (s + t)[1..] == s[1..] + t;
      FilterConcat(s[1..], t, p);
    }
  }

  /** Filtering with a predicate that every element satisfies is the identity. */
  lemma {:induction false} FilterAll<T>(s: seq<T>, p: T -> bool)
    requires forall i :: 0 <= i < |s| ==> p(s[i])
    ensures Filter(s, p) == s
    decreases |s|
  {
    if |s| > 0 {
      FilterAll(s[1..], p);
    }
  }

  /** Filtering with a predicate that no element satisfies leaves nothing. */
  lemma {:induction false} FilterNone<T>(s: seq<T>, p: T -> bool)
    requires forall i :: 0 <= i < |s| ==> !p(s[i])
    ensures Filter(s, p) == []
    decreases |s|
  {
    if |s| > 0 {
      FilterNone(s[1..], p);
    }
  }

  /** A filter is empty exactly when nothing qualifies, and the whole
      sequence when everything does. */
  lemma FilterExtremes<T>(s: seq<T>, p: T -> bool)
    ensures (forall i :: 0 <= i < |s| ==> !p(s[i])) <==> Filter(s, p) == []
    ensures (forall i :: 0 <= i < |s| ==> p(s[i])) ==> Filter(s, p) == s
  {
    if forall i :: 0 <= i < |s| ==> !p(s[i]) {
      FilterNone(s, p);
    } else {
      var i :| 0 <= i < |s| && p(s[i]);
      assert s[i] in Filter(s, p);
    }
    if forall i :: 0 <= i < |s| ==> p(s[i]) {
      FilterAll(s, p);
    }
  }

  /** `s.filter(p).length`: how many elements satisfy `p`. */
  function Count<T>(s: seq<T>, p: T -> bool): (r: nat)
    ensures r <= |s|
    ensures (forall i :: 0 <= i < |s| ==> !p(s[i])) <==> r == 0
    ensures (forall i :: 0 <= i < |s| ==> p(s[i])) ==> r == |s|
  {
    FilterExtremes(s, p);
    |Filter(s, p)|
  }

  /** Appending one element adds one to the count exactly when it qualifies. */
  lemma CountSnoc<T>(s: seq<T>, x: T, p: T -> bool)
    ensures Count(s + [x], p) == Count(s, p) + (if p(x) then 1 else 0)
  {
    FilterConcat(s, [x], p);
    assert [x][1..] == [];
    assert Filter([x], p) == (if p(x) then [x] else []) + Filter([], p);
  }

  /** `s.reduce((sum, x) => sum + f(x), 0)`: a left fold, so the last element is
      added last. */
  function Sum<T>(s: seq<T>, f: T -> int): (r: int)
    ensures (forall i :: 0 <= i < |s| ==> f(s[i]) >= 0) ==> r >= 0
    decreases |s|
  {
    if |s| == 0 then 0
    else Sum(s[..|s| - 1], f) + f(s[|s| - 1])
  }

  /** The fold over a concatenation is the sum of the folds. */
  lemma {:induction false} SumConcat<T>(s: seq<T>, t: seq<T>, f: T -> int)
    ensures Sum(s + t, f) == Sum(s, f) + Sum(t, f)
    decreases |t|
  {
    if |t| == 0 {
      assert s + t == s;
    } else {
      var t' := t[..|t| - 1];
      assert (s + t)[..|s + t| - 1] == s + t';
      SumConcat(s, t', f);
    }
  }

  /** Appending one element adds its term. */
  lemma SumSnoc<T>(s: seq<T>, x: T, f: T -> int)
    ensures Sum(s + [x], f) == Sum(s, f) + f(x)
  {
    assert (s + [x])[..|s|] == s;
  }

  /** A sum of non-negative terms bounds the sum over any filtered part of it. */
  lemma {:induction false} SumFilterBound<T>(s: seq<T>, p: T -> bool, f: T -> int)
    requires forall i :: 0 <= i < |s| ==> f(s[i]) >= 0
    ensures 0 <= Sum(Filter(s, p), f) <= Sum(s, f)
    decreases |s|
  {
    if |s| > 0 {
      var head := if p(s[0]) then [s[0]] else [];
      assert s == [s[0]] + s[1..];
      SumConcat([s[0]], s[1..], f);
      SumConcat(head, Filter(s[1..], p), f);
      assert Sum([s[0]], f) == f(s[0]) by {
        assert [s[0]][..0] == [];
      }
      if p(s[0]) {
        assert Sum(head, f) == f(s[0]);
      } else {
        assert head == [];
      }
      SumFilterBound(s[1..], p, f);
    }
  }

  /** Each non-negative term is at most the whole sum. */
  lemma {:induction false} TermWithinSum<T>(s: seq<T>, f: T -> int, k: nat)
    requires forall i :: 0 <= i < |s| ==> f(s[i]) >= 0
    requires k < |s|
    ensures f(s[k]) <= Sum(s, f)
    decreases |s|
  {
    var n := |s| - 1;
    if k < n {
      TermWithinSum(s[..n], f, k);
    }
  }

  /** `s.findIndex(p)`, with JavaScript's -1 as `None`: the FIRST position
      whose element satisfies `p`. */
  function FindIndex<T>(s: seq<T>, p: T -> bool): (r: Option<nat>)
    ensures r.Some? ==> r.value < |s| && p(s[r.value])
    ensures r.Some? ==> forall j :: 0 <= j < r.value ==> !p(s[j])
    ensures r.None? <==> forall j :: 0 <= j < |s| ==> !p(s[j])
    decreases |s|
  {
    if |s| == 0 then None
    else if p(s[0]) then Some(0)
    else match FindIndex(s[1..], p)
      case None => None
      case Some(k) => Some(k + 1)
  }

  /** `s.find(p)`: the first element satisfying `p`, if any. */
  function Find<T>(s: seq<T>, p: T -> bool): (r: Option<T>)
    ensures r.None? <==> forall j :: 0 <= j < |s| ==> !p(s[j])
    ensures r.Some? ==> exists k :: 0 <= k < |s| && s[k] == r.value && p(s[k])
                                    && forall j :: 0 <= j < k ==> !p(s[j])
  {
    match FindIndex(s, p)
    case None => None
    case Some(k) => Some(s[k])
  }

  /** `s.map(x => hit(x) ? f(x) : x)`: the shape of every update and toggle in
      the store. Only the elements that `hit` selects are rewritten. */
  function MapWhere<T>(s: seq<T>, hit: T -> bool, f: T -> T): (r: seq<T>)
    ensures |r| == |s|
    ensures forall i :: 0 <= i < |s| ==> r[i] == if hit(s[i]) then f(s[i]) else s[i]
    decreases |s|
  {
    if |s| == 0 then []
    else [if hit(s[0]) then f(s[0]) else s[0]] + MapWhere(s[1..], hit, f)
  }

  /** When nothing is selected the sequence is returned unchanged. */
  lemma MapWhereNoHit<T>(s: seq<T>, hit: T -> bool, f: T -> T)
    requires forall i :: 0 <= i < |s| ==> !hit(s[i])
    ensures MapWhere(s, hit, f) == s
  {
  }

  /** An involution that keeps the selection applied twice restores the input. */
  lemma MapWhereInvolution<T>(s: seq<T>, hit: T -> bool, f: T -> T)
    requires forall x :: hit(x) ==> hit(f(x)) && f(f(x)) == x
    ensures MapWhere(MapWhere(s, hit, f), hit, f) == s
  {
  }

  /** An idempotent rewrite applied twice is the rewrite applied once,
      whether or not it keeps the element selected. */
  lemma MapWhereIdempotent<T>(s: seq<T>, hit: T -> bool, f: T -> T)
    requires forall x :: hit(x) && hit(f(x)) ==> f(f(x)) == f(x)
    ensures MapWhere(MapWhere(s, hit, f), hit, f) == MapWhere(s, hit, f)
  {
  }

  /** `s.slice(-n)` for `n > 0`: the last `min(n, |s|)` elements, in order. */
  function LastN<T>(s: seq<T>, n: nat): (r: seq<T>)
    requires n > 0
    ensures |r| == if |s| < n then |s| else n
    ensures s == s[..|s| - |r|] + r
  {
    if |s| < n then s else s[|s| - n..]
  }

  /** `s.slice(0, n)`: the first `min(n, |s|)` elements, in order. */
  function FirstN<T>(s: seq<T>, n: nat): (r: seq<T>)
    ensures |r| == if |s| < n then |s| else n
    ensures s == r + s[|r|..]
  {
    if |s| < n then s else s[..n]
  }

  /** `s.filter((_, k) => k !== i)`: the element at position `i` removed, or
      nothing removed when `i` is not a position of `s`. */
  function DropIndex<T>(s: seq<T>, i: int): (r: seq<T>)
    ensures 0 <= i < |s| ==> r == s[..i] + s[i + 1..]
    ensures !(0 <= i < |s|) ==> r == s
    decreases |s|
  {
    if |s| == 0 then []
    else
      assert s == [s[0]] + s[1..];
      (if i == 0 then [] else [s[0]]) + DropIndex(s[1..], i - 1)
  }

  /** `s.filter(y => y !== x)`: every occurrence of `x` removed. */
  function RemoveAll<T(==)>(s: seq<T>, x: T): (r: seq<T>)
    ensures multiset(r) == multiset(s)[x := 0]
    ensures x !in r
    decreases |s|
  {
    if |s| == 0 then []
    else
      assert s == [s[0]] + s[1..];
      (if s[0] == x then [] else [s[0]]) + RemoveAll(s[1..], x)
  }

  /** Removal commutes with concatenation, so survivors keep their order. */
  lemma {:induction false} RemoveAllConcat<T>(s: seq<T>, t: seq<T>, x: T)
    ensures RemoveAll(s + t, x) == RemoveAll(s, x) + RemoveAll(t, x)
    decreases |s|
  {
    if |s| == 0 {
      assert s + t == t;
    } else {
      assert (s + t)[1..] == s[1..] + t;
      RemoveAllConcat(s[1..], t, x);
    }
  }

  /** Removing an absent element changes nothing. */
  lemma {:induction false} RemoveAllAbsent<T>(s: seq<T>, x: T)
    requires x !in s
    ensures RemoveAll(s, x) == s
    decreases |s|
  {
    if |s| > 0 {
      RemoveAllAbsent(s[1..], x);
    }
  }
}

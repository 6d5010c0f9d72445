/**
 * The JavaScript array operations the CRM relies on (`filter`, `findIndex`,
 * `splice`, `map`, `reduce`), written once over sequences so that the server
 * and both client pages share them.
 */
module Lists {

  datatype Option<T> = None | Some(value: T)

  /** `o ?? d`: the value in `o`, or `d` when there is none. */
  function GetOr<T>(o: Option<T>, d: T): T {
    match o
    case Some(v) => v
    case None => d
  }

  function Not<T>(p: T -> bool): T -> bool {
    x => !p(x)
  }

  function Always<T>(x: T): T -> T {
    _ => x
  }

  /** `Array.prototype.filter`: the elements satisfying `p`, in their original order. */
  function Filter<T>(s: seq<T>, p: T -> bool): (r: seq<T>)
    ensures |r| <= |s|
    ensures forall i :: 0 <= i < |r| ==> r[i] in s && p(r[i])
    ensures forall i :: 0 <= i < |s| && p(s[i]) ==> s[i] in r
  {
    if s == [] then []
    else if p(s[0]) then [s[0]] + Filter(s[1..], p)
    else Filter(s[1..], p)
  }

  /** Filtering a non-empty sequence counts its head once when it matches. */
  lemma FilterLengthStep<T>(s: seq<T>, p: T -> bool)
    requires s != []
    ensures |Filter(s, p)| == |Filter(s[1..], p)| + if p(s[0]) then 1 else 0
  {
  }

  /** Filtering distributes over concatenation: what comes first stays first. */
  lemma {:induction false} FilterAppend<T>(a: seq<T>, b: seq<T>, p: T -> bool)
    ensures Filter(a + b, p) == Filter(a, p) + Filter(b, p)
  {
    if a == [] {
      assert a + b == b;
    } else {
      assert (a + b)[0] == a[0];
      assert (a + b)[1..] == a[1..] + b;
      FilterAppend(a[1..], b, p);
    }
  }

  lemma FilterAppendOne<T>(s: seq<T>, x: T, p: T -> bool)
    ensures Filter(s + [x], p) == if p(x) then Filter(s, p) + [x] else Filter(s, p)
  {
    FilterAppend(s, [x], p);
    FilterSingleton(x, p);
  }

  lemma {:induction false} FilterKeepsAll<T>(s: seq<T>, p: T -> bool)
    requires forall i :: 0 <= i < |s| ==> p(s[i])
    ensures Filter(s, p) == s
  {
    if s != [] {
      FilterKeepsAll(s[1..], p);
    }
  }

  lemma FilterDropsAll<T>(s: seq<T>, p: T -> bool)
    requires forall i :: 0 <= i < |s| ==> !p(s[i])
    ensures Filter(s, p) == []
  {
  }

  lemma FilterSingleton<T>(x: T, p: T -> bool)
    ensures Filter([x], p) == if p(x) then [x] else []
  {
    assert [x][1..] == [];
  }

  /** Filters whose predicates agree on every element give the same result. */
  lemma {:induction false} FilterCongruent<T>(s: seq<T>, p: T -> bool, q: T -> bool)
    requires forall i :: 0 <= i < |s| ==> p(s[i]) == q(s[i])
    ensures Filter(s, p) == Filter(s, q)
  {
    if s != [] {
      FilterCongruent(s[1..], p, q);
    }
  }

  /** Two successive filters may be applied in either order. */
  lemma {:induction false} FilterCommutes<T>(s: seq<T>, p: T -> bool, q: T -> bool)
    ensures Filter(Filter(s, p), q) == Filter(Filter(s, q), p)
  {
    if s != [] {
      FilterCommutes(s[1..], p, q);
    }
  }

  /** Every element is counted exactly once by `p` or by its negation. */
  lemma {:induction false} FilterSplitCount<T>(s: seq<T>, p: T -> bool)
    ensures |Filter(s, p)| + |Filter(s, Not(p))| == |s|
  {
    if s != [] {
      FilterSplitCount(s[1..], p);
    }
  }

  /** `s.reduce((sum, x) => sum + f(x), 0)`. */
  function Sum<T>(s: seq<T>, f: T -> int): (r: int)
    ensures (forall i :: 0 <= i < |s| ==> f(s[i]) >= 0) ==> r >= 0
  {
    if s == [] then 0 else f(s[0]) + Sum(s[1..], f)
  }

  lemma {:induction false} SumAppend<T>(a: seq<T>, b: seq<T>, f: T -> int)
    ensures Sum(a + b, f) == Sum(a, f) + Sum(b, f)
  {
    if a == [] {
      assert a + b == b;
    } else {
      assert (a + b)[0] == a[0];
      assert (a + b)[1..] == a[1..] + b;
      SumAppend(a[1..], b, f);
    }
  }

  /** The sum over the elements satisfying `p` plus the sum over the rest is the whole sum. */
  lemma {:induction false} SumSplit<T>(s: seq<T>, p: T -> bool, f: T -> int)
    ensures Sum(Filter(s, p), f) + Sum(Filter(s, Not(p)), f) == Sum(s, f)
  {
    if s != [] {
      SumSplit(s[1..], p, f);
      if p(s[0]) {
        SumAppend([s[0]], Filter(s[1..], p), f);
      } else {
        SumAppend([s[0]], Filter(s[1..], Not(p)), f);
      }
    }
  }

  /** `Array.prototype.findIndex`, with `None` for JavaScript's -1. */
  function FindIndex<T>(s: seq<T>, p: T -> bool): (r: Option<nat>)
    ensures r.Some? ==> r.value < |s| && p(s[r.value])
    ensures r.Some? ==> forall j :: 0 <= j < r.value ==> !p(s[j])
    ensures r.None? ==> forall j :: 0 <= j < |s| ==> !p(s[j])
  {
    if s == [] then None
    else if p(s[0]) then Some(0)
    else match FindIndex(s[1..], p)
      case None => None
      case Some(i) => Some(i + 1)
  }

  /** `findIndex` followed by `splice(index, 1)`; nothing happens when no element matches. */
  function RemoveFirst<T>(s: seq<T>, p: T -> bool): (r: seq<T>)
    ensures FindIndex(s, p).None? ==> r == s
    ensures FindIndex(s, p).Some? ==>
      var i := FindIndex(s, p).value;
      |r| == |s| - 1 && r[..i] == s[..i] && r[i..] == s[i + 1..]
  {
    match FindIndex(s, p)
    case None => s
    case Some(i) => s[..i] + s[i + 1..]
  }

  /**
   * Removing the first match takes away exactly one matching element and
   * keeps every non-matching element, in order.
   */
  lemma RemoveFirstTakesOneMatch<T>(s: seq<T>, p: T -> bool)
    requires FindIndex(s, p).Some?
    ensures |RemoveFirst(s, p)| == |s| - 1
    ensures |Filter(RemoveFirst(s, p), p)| == |Filter(s, p)| - 1
    ensures Filter(RemoveFirst(s, p), Not(p)) == Filter(s, Not(p))
  {
    var i := FindIndex(s, p).value;
    var a, x, b := s[..i], s[i], s[i + 1..];
    assert s == a + [x] + b;
    assert RemoveFirst(s, p) == a + b;
    DropOneMatch(a, x, b, p);
  }

  /** Dropping a match that comes after no other match. */
  lemma DropOneMatch<T>(a: seq<T>, x: T, b: seq<T>, p: T -> bool)
    requires forall k :: 0 <= k < |a| ==> !p(a[k])
    requires p(x)
    ensures |Filter(a + [x] + b, p)| == |Filter(a + b, p)| + 1
    ensures Filter(a + [x] + b, Not(p)) == Filter(a + b, Not(p))
  {
    var fa, fb := Filter(a, p), Filter(b, p);
    assert fa == [] by { FilterDropsAll(a, p); }
    assert Filter(a + [x], p) == [x] by {
      FilterAppend(a, [x], p);
      FilterSingleton(x, p);
    }
    assert Filter(a + [x] + b, p) == [x] + fb by { FilterAppend(a + [x], b, p); }
    assert Filter(a + b, p) == fb by { FilterAppend(a, b, p); }
    var na := Filter(a, Not(p));
    assert Filter(a + [x], Not(p)) == na by {
      FilterAppend(a, [x], Not(p));
      FilterSingleton(x, Not(p));
    }
    assert Filter(a + [x] + b, Not(p)) == na + Filter(b, Not(p)) by { FilterAppend(a + [x], b, Not(p)); }
    FilterAppend(a, b, Not(p));
  }

  /** No two positions both satisfy `p`. */
  ghost predicate AtMostOne<T>(s: seq<T>, p: T -> bool) {
    forall i, j :: 0 <= i < j < |s| && p(s[i]) ==> !p(s[j])
  }

  /** Under `AtMostOne`, nothing after a match matches. */
  lemma NoMatchAfter<T>(s: seq<T>, p: T -> bool, i: nat, rest: seq<T>)
    requires AtMostOne(s, p) && i < |s| && p(s[i]) && rest == s[i + 1..]
    ensures forall k :: 0 <= k < |rest| ==> !p(rest[k])
  {
    forall k | 0 <= k < |rest|
      ensures !p(rest[k])
    {
      assert rest[k] == s[i + 1 + k];
    }
  }

  /** Removing position `i`, when it is the only match, is filtering out the matches. */
  lemma RemoveOnlyMatch<T>(a: seq<T>, x: T, b: seq<T>, p: T -> bool)
    requires forall k :: 0 <= k < |a| ==> !p(a[k])
    requires forall k :: 0 <= k < |b| ==> !p(b[k])
    requires p(x)
    ensures Filter(a + [x] + b, Not(p)) == a + b
  {
    calc {
      Filter(a + [x] + b, Not(p));
      { FilterAppend(a + [x], b, Not(p)); }
      Filter(a + [x], Not(p)) + Filter(b, Not(p));
      { FilterAppend(a, [x], Not(p)); }
      Filter(a, Not(p)) + Filter([x], Not(p)) + Filter(b, Not(p));
      { FilterSingleton(x, Not(p)); }
      Filter(a, Not(p)) + Filter(b, Not(p));
      { FilterKeepsAll(a, Not(p)); FilterKeepsAll(b, Not(p)); }
      a + b;
    }
  }

  /**
   * Removing the first match and removing every match agree exactly when at
   * most one element matches.
   */
  lemma RemoveFirstIsFilterWhenUnique<T>(s: seq<T>, p: T -> bool)
    requires AtMostOne(s, p)
    ensures RemoveFirst(s, p) == Filter(s, Not(p))
  {
    match FindIndex(s, p)
    case None =>
      FilterKeepsAll(s, Not(p));
    case Some(i) =>
      NoMatchAfter(s, p, i, s[i + 1..]);
      assert s == s[..i] + [s[i]] + s[i + 1..];
      RemoveOnlyMatch(s[..i], s[i], s[i + 1..], p);
  }

  /** With two matching elements, removing the first match leaves the second behind. */
  lemma RemoveFirstLeavesDuplicate<T>(x: T, y: T, p: T -> bool)
    requires p(x) && p(y)
    ensures RemoveFirst([x, y], p) == [y]
    ensures Filter([x, y], Not(p)) == []
  {
    assert [x, y][1..] == [y];
  }

  /** `s.map(x => p(x) ? f(x) : x)`. */
  function ReplaceWhere<T>(s: seq<T>, p: T -> bool, f: T -> T): (r: seq<T>)
    ensures |r| == |s|
    ensures forall i :: 0 <= i < |s| ==> r[i] == if p(s[i]) then f(s[i]) else s[i]
  {
    if s == [] then []
    else [if p(s[0]) then f(s[0]) else s[0]] + ReplaceWhere(s[1..], p, f)
  }

  /**
   * Replacing every match and replacing only the first one (`s[i] = f(s[i])`
   * after `findIndex`) agree when at most one element matches.
   */
  lemma ReplaceWhereIsUpdateWhenUnique<T>(s: seq<T>, p: T -> bool, f: T -> T)
    requires AtMostOne(s, p)
    ensures FindIndex(s, p).None? ==> ReplaceWhere(s, p, f) == s
    ensures FindIndex(s, p).Some? ==>
      var i := FindIndex(s, p).value;
      ReplaceWhere(s, p, f) == s[i := f(s[i])]
  {
  }
}

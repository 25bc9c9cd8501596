/** Python list and set operations shared by several modules. */
module Lists {
  import opened Wrappers

  /** `xs.index(x)`: the first position holding `x`, or `None` where Python raises ValueError. */
  function IndexOf<T(==)>(xs: seq<T>, x: T): (r: Option<nat>)
    ensures r.Some? ==> r.value < |xs| && xs[r.value] == x && forall k :: 0 <= k < r.value ==> xs[k] != x
    ensures r.None? <==> x !in xs
  {
    if |xs| == 0 then None
    else if xs[0] == x then Some(0)
    else
      var r := IndexOf(xs[1..], x);
      assert forall k :: 1 <= k < |xs| ==> xs[1..][k - 1] == xs[k];
      if r.Some? then Some(r.value + 1) else None
  }

  /** The elements that follow the first occurrence of `x` (`xs[xs.index(x) + 1:]`), or `[]` when absent. */
  function After<T(==)>(xs: seq<T>, x: T): (r: seq<T>)
    ensures x in xs ==> exists i :: 0 <= i < |xs| && xs[i] == x && x !in xs[..i] && r == xs[i + 1..]
    ensures x !in xs ==> r == []
  {
    match IndexOf(xs, x)
    case None => []
    case Some(i) => xs[i + 1..]
  }

  /** The set of the elements of `xs` (`set(xs)`). */
  function Elems<T>(xs: seq<T>): set<T>
  {
    if |xs| == 0 then {} else Elems(xs[..|xs| - 1]) + {xs[|xs| - 1]}
  }

  lemma {:induction false} ElemsMeaning<T>(xs: seq<T>, x: T)
    ensures x in Elems(xs) <==> x in xs
    decreases |xs|
  {
    if |xs| > 0 {
      var init := xs[..|xs| - 1];
      ElemsMeaning(init, x);
      assert xs == init + [xs[|xs| - 1]];
    }
  }

  /** No element is listed twice. */
  ghost predicate Distinct<T>(xs: seq<T>)
  {
    forall i, j :: 0 <= i < j < |xs| ==> xs[i] != xs[j]
  }

  /** In a list without repetitions, an element's first position is its position. */
  lemma {:induction false} IndexOfDistinct<T>(xs: seq<T>, i: nat)
    requires Distinct(xs) && i < |xs|
    ensures IndexOf(xs, xs[i]) == Some(i)
  {
    assert xs[i] in xs;
  }

  /** A suffix of a list without repetitions has none. */
  lemma {:induction false} DistinctSuffix<T>(xs: seq<T>, i: nat)
    requires Distinct(xs) && i <= |xs|
    ensures Distinct(xs[i..])
  {
    var rest := xs[i..];
    forall k, l | 0 <= k < l < |rest| ensures rest[k] != rest[l] {
      assert rest[k] == xs[i + k] && rest[l] == xs[i + l];
    }
  }

  /** A subset is no larger than the set that holds it. */
  lemma {:induction false} SubsetCard<T>(a: set<T>, b: set<T>)
    requires a <= b
    ensures |a| <= |b|
    decreases |b|
  {
    if b != {} {
      var x :| x in b;
      SubsetCard(a - {x}, b - {x});
    }
  }

  /** `xs.remove(x)` where `x` is listed: the list without the first occurrence of `x`. */
  function RemoveFirst<T(==)>(xs: seq<T>, x: T): (r: seq<T>)
    requires x in xs
    ensures |r| == |xs| - 1
    ensures exists i :: 0 <= i < |xs| && xs[i] == x && x !in xs[..i] && r == xs[..i] + xs[i + 1..]
  {
    var i := IndexOf(xs, x).value;
    assert x !in xs[..i];
    xs[..i] + xs[i + 1..]
  }

  /** Removing an element from a list without repetitions removes it entirely and keeps every other element. */
  lemma {:induction false} RemoveFirstDistinct<T>(xs: seq<T>, x: T)
    requires x in xs && Distinct(xs)
    ensures Distinct(RemoveFirst(xs, x))
    ensures forall y :: y in RemoveFirst(xs, x) <==> y in xs && y != x
  {
    var r := RemoveFirst(xs, x);
    var i :| 0 <= i < |xs| && xs[i] == x && x !in xs[..i] && r == xs[..i] + xs[i + 1..];
    forall a, b | 0 <= a < b < |r| ensures r[a] != r[b] {
      RemovedAt(xs, i, r, a);
      RemovedAt(xs, i, r, b);
    }
    forall y ensures y in r <==> y in xs && y != x {
      if y in r {
        var k :| 0 <= k < |r| && r[k] == y;
        RemovedAt(xs, i, r, k);
      }
      if y in xs && y != x {
        var k :| 0 <= k < |xs| && xs[k] == y;
        assert k != i;
        RemovedAt(xs, i, r, if k < i then k else k - 1);
      }
    }
  }

  /** Position `k` of `xs` without its element at `i` holds the element of `xs` it came from. */
  lemma {:induction false} RemovedAt<T>(xs: seq<T>, i: nat, r: seq<T>, k: nat)
    requires i < |xs| && r == xs[..i] + xs[i + 1..] && k < |r|
    ensures r[k] == xs[if k < i then k else k + 1]
  {
    if k >= i {
      assert r[k] == xs[i + 1..][k - i];
    }
  }

  /** `r` lists some of the elements of `s`, in their order in `s`. */
  predicate Subsequence<T(==)>(r: seq<T>, s: seq<T>)
    decreases |s|
  {
    if |s| == 0 then |r| == 0
    else (|r| > 0 && r[0] == s[0] && Subsequence(r[1..], s[1..])) || Subsequence(r, s[1..])
  }
}

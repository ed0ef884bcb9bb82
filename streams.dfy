/** The pieces of `java.util.stream` and `ArrayList` the stores are built
    from, as functions on sequences: `filter`, `findFirst`, `sorted` with a
    comparator (stable, as Java's is on an ordered stream), `limit` and
    `List.remove(Object)`. */
module Streams {
  import opened Outcomes

  /** `r` keeps some of the elements of `s` in their relative order. */
  ghost predicate Subsequence<T>(r: seq<T>, s: seq<T>)
    decreases |s|
  {
    if r == [] then true
    else if s == [] then false
    else if r[0] == s[0] then Subsequence(r[1..], s[1..])
    else Subsequence(r, s[1..])
  }

  /** `s.stream().filter(p).collect(toList())`: every element `p` accepts, as
      often as it occurs in `s`, and nothing else, in the order of `s`. */
  function Filter<T>(s: seq<T>, p: T -> bool): (r: seq<T>)
    ensures forall x | x in r :: x in s && p(x)
    ensures r == [] <==> forall x | x in s :: !p(x)
  {
    if s == [] then []
    else
      var rest := Filter(s[1..], p);
      if p(s[0]) then [s[0]] + rest else rest
  }

  /** `Filter` keeps each accepted element exactly as often as `s` holds it,
      and drops every other one. */
  lemma {:induction false} FilterCounts<T>(s: seq<T>, p: T -> bool)
    ensures forall x :: multiset(Filter(s, p))[x] == if p(x) then multiset(s)[x] else 0
  {
    if s != [] {
      FilterCounts(s[1..], p);
      assert s == [s[0]] + s[1..];
    }
  }

  /** `r` holds exactly the elements of `s` that `p` accepts, each as often
      as `s` holds it, in some order. */
  ghost predicate Selected<T>(r: seq<T>, s: seq<T>, p: T -> bool) {
    && (forall x | x in r :: x in s && p(x))
    && (forall x | x in s :: multiset(r)[x] == if p(x) then multiset(s)[x] else 0)
  }

  lemma FilterSelected<T>(s: seq<T>, p: T -> bool)
    ensures Selected(Filter(s, p), s, p)
  {
    FilterCounts(s, p);
  }

  /** Reordering a selection keeps it a selection. */
  lemma PermutedSelected<T>(r: seq<T>, f: seq<T>, s: seq<T>, p: T -> bool)
    requires multiset(r) == multiset(f) && Selected(f, s, p)
    ensures Selected(r, s, p)
  {
    forall x | x in r ensures x in s && p(x) {
      assert x in multiset(f);
    }
  }

  /** What `Filter` keeps stays in the order of `s`. */
  lemma {:induction false} FilterIsSubsequence<T>(s: seq<T>, p: T -> bool)
    ensures Subsequence(Filter(s, p), s)
  {
    if s != [] {
      FilterIsSubsequence(s[1..], p);
      var rest := Filter(s[1..], p);
      if p(s[0]) {
        assert ([s[0]] + rest)[1..] == rest;
      } else {
        assert rest != [] ==> rest[0] in rest;
      }
    }
  }

  /** The position of the first element of `s` that `p` accepts:
      `s.stream().filter(p).findFirst()`, by index. */
  function FirstMatch<T>(s: seq<T>, p: T -> bool): (r: Option<nat>)
    ensures r.None? <==> forall x | x in s :: !p(x)
    ensures r.Some? ==> r.value < |s| && p(s[r.value])
    ensures r.Some? ==> forall j | 0 <= j < r.value :: !p(s[j])
  {
    if s == [] then None
    else if p(s[0]) then Some(0)
    else
      match FirstMatch(s[1..], p)
      case None => None
      case Some(i) => Some(i + 1)
  }

  /** `List.remove(Object)`: drops the first occurrence of `x`, if there is
      one. */
  function RemoveFirst<T(==)>(s: seq<T>, x: T): (r: seq<T>)
    ensures x !in s ==> r == s
    ensures x in s ==> |r| == |s| - 1 && multiset(r) == multiset(s) - multiset{x}
  {
    if s == [] then []
    else if s[0] == x then
      assert s == [s[0]] + s[1..];
      s[1..]
    else
      assert s == [s[0]] + s[1..];
      [s[0]] + RemoveFirst(s[1..], x)
  }

  /** When position `i` holds the first occurrence of `s[i]`, removing that
      element drops exactly position `i`. */
  lemma {:induction false} RemoveFirstAt<T>(s: seq<T>, i: nat)
    requires i < |s| && s[i] !in s[..i]
    ensures RemoveFirst(s, s[i]) == s[..i] + s[i + 1..]
  {
    if i > 0 {
      assert s[0] in s[..i];
      assert s[1..][i - 1] == s[i];
      assert s[i] !in s[1..][..i - 1] by {
        assert s[1..][..i - 1] == s[1..i];
      }
      RemoveFirstAt(s[1..], i - 1);
      assert [s[0]] + s[1..][..i - 1] == s[..i];
      assert s[1..][i..] == s[i + 1..];
    }
  }

  /** `a` may stay in front of `b` when `cmp` is the comparator: `cmp(a, b) <= 0`. */
  predicate InOrder<T>(cmp: (T, T) -> int, a: T, b: T) {
    cmp(a, b) <= 0
  }

  /** `a` and `b` compare as equal under `cmp`, either way round. */
  predicate Tied<T>(cmp: (T, T) -> int, a: T, b: T) {
    InOrder(cmp, a, b) && InOrder(cmp, b, a)
  }

  /** On the elements of `s`, `cmp` orders every pair and transitively: it is a
      comparator Java's `sorted` may be given. */
  ghost predicate TotalPreorderOn<T>(s: seq<T>, cmp: (T, T) -> int) {
    && (forall x, y | x in s && y in s :: InOrder(cmp, x, y) || InOrder(cmp, y, x))
    && (forall x, y, z | x in s && y in s && z in s ::
          InOrder(cmp, x, y) && InOrder(cmp, y, z) ==> InOrder(cmp, x, z))
  }

  /** No element of `s` comes after one that `cmp` puts behind it. */
  ghost predicate SortedBy<T>(s: seq<T>, cmp: (T, T) -> int) {
    forall i, j | 0 <= i < j < |s| :: InOrder(cmp, s[i], s[j])
  }

  /** Puts `x` in front of the first element it may precede. */
  function Insert<T>(x: T, s: seq<T>, cmp: (T, T) -> int): (r: seq<T>)
    ensures multiset(r) == multiset(s) + multiset{x}
  {
    if s == [] || InOrder(cmp, x, s[0]) then [x] + s
    else
      assert s == [s[0]] + s[1..];
      [s[0]] + Insert(x, s[1..], cmp)
  }

  lemma {:induction false} InsertSorted<T>(x: T, s: seq<T>, cmp: (T, T) -> int)
    requires TotalPreorderOn([x] + s, cmp)
    requires SortedBy(s, cmp)
    ensures SortedBy(Insert(x, s, cmp), cmp)
  {
    if s != [] && !InOrder(cmp, x, s[0]) {
      assert TotalPreorderOn([x] + s[1..], cmp) by {
        forall y | y in [x] + s[1..] ensures y in [x] + s { }
      }
      InsertSorted(x, s[1..], cmp);
      var r := Insert(x, s[1..], cmp);
      assert InOrder(cmp, s[0], x);
      forall y | y in r ensures InOrder(cmp, s[0], y) {
        assert y in multiset(r);
        if y != x {
          assert y in s[1..];
        }
      }
    }
  }

  /** `s.stream().sorted(cmp)`: the elements of `s`, each as often as in `s`,
      ordered by `cmp`. */
  function SortBy<T>(s: seq<T>, cmp: (T, T) -> int): (r: seq<T>)
    requires TotalPreorderOn(s, cmp)
    ensures multiset(r) == multiset(s)
    ensures SortedBy(r, cmp)
  {
    if s == [] then []
    else
      assert s == [s[0]] + s[1..];
      var rest := SortBy(s[1..], cmp);
      assert forall y | y in [s[0]] + rest :: y in multiset(s);
      InsertSorted(s[0], rest, cmp);
      Insert(s[0], rest, cmp)
  }

  /** The elements tied with `k`. */
  function TiedWith<T>(cmp: (T, T) -> int, k: T): T -> bool {
    x => Tied(cmp, x, k)
  }

  lemma {:induction false} SwapFronts<T>(a: seq<T>, b: seq<T>, c: seq<T>)
    requires a == [] || b == []
    ensures a + (b + c) == b + (a + c)
  {
  }

  /** Filtering a sequence with a first element `x` is filtering `x` and
      then the rest. */
  lemma {:induction false} FilterCons<T>(x: T, s: seq<T>, p: T -> bool)
    ensures Filter([x] + s, p) == (if p(x) then [x] else []) + Filter(s, p)
  {
    assert ([x] + s)[1..] == s;
  }

  /** Inserting `x` puts it in front of the elements `p` selects, when `x`
      may precede each of them. */
  lemma {:induction false} InsertFilter<T>(x: T, s: seq<T>, cmp: (T, T) -> int, p: T -> bool)
    requires p(x) ==> forall y | y in s && p(y) :: InOrder(cmp, x, y)
    ensures Filter(Insert(x, s, cmp), p) == (if p(x) then [x] else []) + Filter(s, p)
  {
    if s == [] || InOrder(cmp, x, s[0]) {
      FilterCons(x, s, p);
    } else {
      InsertFilter(x, s[1..], cmp, p);
      InsertFilterPast(x, s, cmp, p);
    }
  }

  /** The step of `InsertFilter` where `x` moves past the first element. */
  lemma {:induction false} InsertFilterPast<T>(x: T, s: seq<T>, cmp: (T, T) -> int, p: T -> bool)
    requires s != [] && !InOrder(cmp, x, s[0])
    requires p(x) ==> forall y | y in s && p(y) :: InOrder(cmp, x, y)
    requires Filter(Insert(x, s[1..], cmp), p) == (if p(x) then [x] else []) + Filter(s[1..], p)
    ensures Filter(Insert(x, s, cmp), p) == (if p(x) then [x] else []) + Filter(s, p)
  {
    var r := Insert(x, s[1..], cmp);
    var head := if p(s[0]) then [s[0]] else [];
    var front := if p(x) then [x] else [];
    InsertPast(x, s, cmp);
    FilterCons(s[0], r, p);
    assert Filter(s, p) == head + Filter(s[1..], p);
    assert head == [] || front == [] by {
      if p(x) {
        assert s[0] in s;
      }
    }
    SwapFronts(head, front, Filter(s[1..], p));
  }

  /** An `x` that may not precede the first element is inserted into the rest. */
  lemma {:induction false} InsertPast<T>(x: T, s: seq<T>, cmp: (T, T) -> int)
    requires s != [] && !InOrder(cmp, x, s[0])
    ensures Insert(x, s, cmp) == [s[0]] + Insert(x, s[1..], cmp)
  {
  }

  /** Sorting keeps the elements tied with `k` in their order in `s`. */
  lemma {:induction false} SortByKeepsTies<T>(s: seq<T>, cmp: (T, T) -> int, k: T)
    requires TotalPreorderOn(s + [k], cmp)
    ensures TotalPreorderOn(s, cmp)
    ensures Filter(SortBy(s, cmp), TiedWith(cmp, k)) == Filter(s, TiedWith(cmp, k))
  {
    assert TotalPreorderOn(s, cmp) by {
      forall y | y in s ensures y in s + [k] { }
    }
    if s != [] {
      assert s == [s[0]] + s[1..];
      assert TotalPreorderOn(s[1..] + [k], cmp) by {
        forall y | y in s[1..] + [k] ensures y in s + [k] { }
      }
      SortByKeepsTies(s[1..], cmp, k);
      var rest := SortBy(s[1..], cmp);
      forall y | y in rest && Tied(cmp, y, k) && Tied(cmp, s[0], k)
        ensures InOrder(cmp, s[0], y)
      {
        assert y in multiset(rest);
        assert y in s + [k] && k in s + [k] && s[0] in s + [k];
      }
      InsertFilter(s[0], rest, cmp, TiedWith(cmp, k));
      FilterCons(s[0], s[1..], TiedWith(cmp, k));
    }
  }

  /** Java's `sorted` is stable: the elements of `s` that compare as equal to
      `k` keep the order they had in `s`. */
  lemma SortByStable<T>(s: seq<T>, cmp: (T, T) -> int, k: T)
    requires TotalPreorderOn(s, cmp)
    requires k in s
    ensures Filter(SortBy(s, cmp), TiedWith(cmp, k)) == Filter(s, TiedWith(cmp, k))
  {
    assert TotalPreorderOn(s + [k], cmp) by {
      forall y | y in s + [k] ensures y in s { }
    }
    SortByKeepsTies(s, cmp, k);
  }

  /** Two predicates that agree on every element of `s` select the same
      elements of it. */
  lemma {:induction false} FilterAgree<T>(s: seq<T>, p: T -> bool, q: T -> bool)
    requires forall x | x in s :: p(x) == q(x)
    ensures Filter(s, p) == Filter(s, q)
  {
    if s != [] {
      assert s[0] in s;
      forall x | x in s[1..] ensures p(x) == q(x) {
        assert x in s;
      }
      FilterAgree(s[1..], p, q);
    }
  }

  /** When `p` picks out one class of elements that tie under `cmp`, sorting
      leaves the elements of that class in the order they had. */
  lemma SortByKeepsEqualKeys<T>(s: seq<T>, cmp: (T, T) -> int, p: T -> bool)
    requires TotalPreorderOn(s, cmp)
    requires forall x, y | x in s && y in s && p(x) :: p(y) <==> Tied(cmp, x, y)
    ensures Filter(SortBy(s, cmp), p) == Filter(s, p)
  {
    var sorted := SortBy(s, cmp);
    if k :| k in s && p(k) {
      SortByStable(s, cmp, k);
      var tied := TiedWith(cmp, k);
      forall x | x in s ensures p(x) == tied(x) {
        assert p(x) <==> Tied(cmp, k, x);
      }
      FilterAgree(s, p, tied);
      forall x | x in sorted ensures p(x) == tied(x) {
        assert x in multiset(s);
      }
      FilterAgree(sorted, p, tied);
    } else {
      forall x | x in sorted ensures !p(x) {
        assert x in multiset(s);
      }
    }
  }

  /** `Stream.limit(count)`: the first `count` elements, or all of them when
      there are fewer; a negative `count` is rejected. */
  function Limit<T>(s: seq<T>, count: int): (r: Result<seq<T>>)
    ensures r.Throw? <==> count < 0
    ensures r.Throw? ==> r.exception == IllegalArgumentException
    ensures r.Return? ==> |r.value| == if count < |s| then count else |s|
    ensures r.Return? ==> r.value == s[..|r.value|]
  {
    if count < 0 then Throw(IllegalArgumentException)
    else if count < |s| then Return(s[..count])
    else Return(s)
  }

  /** `sorted(cmp).limit(n)` keeps a least `n` elements: none of those it
      keeps comes after one it leaves out. */
  lemma SortedPrefix<T>(s: seq<T>, cmp: (T, T) -> int, n: nat)
    requires SortedBy(s, cmp) && n <= |s|
    ensures multiset(s[..n]) <= multiset(s)
    ensures forall x, y | x in s[..n] && y in multiset(s) - multiset(s[..n]) :: InOrder(cmp, x, y)
  {
    assert s == s[..n] + s[n..];
    assert multiset(s) - multiset(s[..n]) == multiset(s[n..]);
    forall x, y | x in s[..n] && y in multiset(s) - multiset(s[..n]) ensures InOrder(cmp, x, y) {
      assert y in s[n..];
      var i :| 0 <= i < n && s[i] == x;
      var j :| n <= j < |s| && s[j] == y;
    }
  }
}

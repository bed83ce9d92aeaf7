/**
 * Stable sorting by a total preorder, as `Array.prototype.sort` promises it. The sort is given by insertion;
 * `OnlyStableSort` shows that any stable sort returns the same sequence.
 */
module StableOrder {

  ghost predicate TotalPreorder<T(!new)>(leq: (T, T) -> bool) {
    && (forall a, b :: leq(a, b) || leq(b, a))
    && (forall a, b, c :: leq(a, b) && leq(b, c) ==> leq(a, c))
  }

  ghost predicate Sorted<T>(s: seq<T>, leq: (T, T) -> bool) {
    forall i, j :: 0 <= i < j < |s| ==> leq(s[i], s[j])
  }

  function Filter<T(!new)>(s: seq<T>, p: T -> bool): (r: seq<T>)
    ensures |r| <= |s|
    ensures forall x :: x in r <==> x in s && p(x)
  {
    if s == [] then []
    else if p(s[0]) then [s[0]] + Filter(s[1..], p)
    else Filter(s[1..], p)
  }

  lemma FilterNone<T(!new)>(s: seq<T>, p: T -> bool)
    requires forall x :: x in s ==> !p(x)
    ensures Filter(s, p) == []
  {
  }

  /** Insert `x` in front of the first element it may precede. */
  function Insert<T(!new)>(x: T, s: seq<T>, leq: (T, T) -> bool): (r: seq<T>)
    ensures |r| == |s| + 1
    ensures forall y :: y in r <==> y == x || y in s
    ensures multiset(r) == multiset(s) + multiset{x}
  {
    if s == [] || leq(x, s[0]) then [x] + s
    else
      assert s == [s[0]] + s[1..];
      [s[0]] + Insert(x, s[1..], leq)
  }

  function Sort<T(!new)>(s: seq<T>, leq: (T, T) -> bool): (r: seq<T>)
    ensures |r| == |s|
    ensures forall y :: y in r <==> y in s
    ensures multiset(r) == multiset(s)
  {
    if s == [] then []
    else
      assert s == [s[0]] + s[1..];
      Insert(s[0], Sort(s[1..], leq), leq)
  }

  lemma {:induction false} InsertSorted<T(!new)>(x: T, s: seq<T>, leq: (T, T) -> bool)
    requires TotalPreorder(leq) && Sorted(s, leq)
    ensures Sorted(Insert(x, s, leq), leq)
  {
    if s != [] {
      if leq(x, s[0]) {
        assert forall j :: 0 <= j < |s| ==> leq(s[0], s[j]);
      } else {
        InsertSorted(x, s[1..], leq);
        var rest := Insert(x, s[1..], leq);
        forall j | 0 <= j < |rest| ensures leq(s[0], rest[j]) {
          assert rest[j] in rest;
        }
      }
    }
  }

  lemma {:induction false} SortSorts<T(!new)>(s: seq<T>, leq: (T, T) -> bool)
    requires TotalPreorder(leq)
    ensures Sorted(Sort(s, leq), leq)
  {
    if s != [] {
      SortSorts(s[1..], leq);
      InsertSorted(s[0], Sort(s[1..], leq), leq);
    }
  }

  /** An element that may precede all of `s` is inserted in front of any of its filterings. */
  lemma InsertFront<T(!new)>(x: T, s: seq<T>, p: T -> bool, leq: (T, T) -> bool)
    requires forall y :: y in s ==> leq(x, y)
    ensures Insert(x, Filter(s, p), leq) == [x] + Filter(s, p)
  {
  }

  lemma {:induction false} FilterInsert<T(!new)>(x: T, s: seq<T>, p: T -> bool, leq: (T, T) -> bool)
    requires TotalPreorder(leq) && Sorted(s, leq)
    ensures Filter(Insert(x, s, leq), p) == if p(x) then Insert(x, Filter(s, p), leq) else Filter(s, p)
  {
    if s != [] {
      if leq(x, s[0]) {
        assert ([x] + s)[1..] == s;
        forall y | y in s ensures leq(x, y) {
          var i :| 0 <= i < |s| && s[i] == y;
          assert i > 0 ==> leq(s[0], s[i]);
        }
        InsertFront(x, s, p, leq);
      } else {
        FilterInsert(x, s[1..], p, leq);
        assert Insert(x, s, leq)[1..] == Insert(x, s[1..], leq);
        if p(s[0]) {
          assert Filter(s, p)[1..] == Filter(s[1..], p);
        }
      }
    }
  }

  /** Sorting and filtering commute. */
  lemma {:induction false} FilterSort<T(!new)>(s: seq<T>, p: T -> bool, leq: (T, T) -> bool)
    requires TotalPreorder(leq)
    ensures Filter(Sort(s, leq), p) == Sort(Filter(s, p), leq)
  {
    if s != [] {
      FilterSort(s[1..], p, leq);
      SortSorts(s[1..], leq);
      FilterInsert(s[0], Sort(s[1..], leq), p, leq);
      if p(s[0]) {
        assert Filter(s, p)[1..] == Filter(s[1..], p);
      }
    }
  }

  /** `k`'s ties. */
  function Ties<T>(k: T, leq: (T, T) -> bool): T -> bool {
    x => leq(x, k) && leq(k, x)
  }

  /** `r` is a stable sort of `s`: in order, and every group of ties in its original order. */
  ghost predicate StablySorts<T(!new)>(s: seq<T>, r: seq<T>, leq: (T, T) -> bool) {
    && Sorted(r, leq)
    && forall k :: Filter(r, Ties(k, leq)) == Filter(s, Ties(k, leq))
  }

  lemma {:induction false} TiesStay<T(!new)>(s: seq<T>, k: T, leq: (T, T) -> bool)
    requires TotalPreorder(leq) && forall x :: x in s ==> Ties(k, leq)(x)
    ensures Sort(s, leq) == s
  {
    if s != [] {
      TiesStay(s[1..], k, leq);
      if |s| > 1 {
        assert s[1] in s && s[0] in s;
        assert leq(s[0], s[1..][0]);
      }
    }
  }

  lemma SortIsStable<T(!new)>(s: seq<T>, leq: (T, T) -> bool)
    requires TotalPreorder(leq)
    ensures StablySorts(s, Sort(s, leq), leq)
  {
    SortSorts(s, leq);
    forall k ensures Filter(Sort(s, leq), Ties(k, leq)) == Filter(s, Ties(k, leq)) {
      FilterSort(s, Ties(k, leq), leq);
      TiesStay(Filter(s, Ties(k, leq)), k, leq);
    }
  }

  lemma SelfTie<T(!new)>(s: seq<T>, leq: (T, T) -> bool)
    requires TotalPreorder(leq)
    ensures s != [] ==> s[0] in Filter(s, Ties(s[0], leq))
  {
  }

  lemma {:induction false} SortedTiesUnique<T(!new)>(a: seq<T>, b: seq<T>, leq: (T, T) -> bool)
    requires TotalPreorder(leq) && Sorted(a, leq) && Sorted(b, leq)
    requires forall k :: Filter(a, Ties(k, leq)) == Filter(b, Ties(k, leq))
    ensures a == b
    decreases |a|
  {
    SelfTie(a, leq);
    SelfTie(b, leq);
    if a != [] && b != [] {
      assert a[0] in Filter(b, Ties(a[0], leq)) by {
        assert a[0] in Filter(a, Ties(a[0], leq));
      }
      assert b[0] in Filter(a, Ties(b[0], leq)) by {
        assert b[0] in Filter(b, Ties(b[0], leq));
      }
      assert a[0] in b && b[0] in a;
      assert leq(b[0], a[0]) && leq(a[0], b[0]) by {
        assert leq(b[0], b[0]) && leq(a[0], a[0]);
      }
      assert Filter(a, Ties(a[0], leq))[0] == a[0];
      assert Filter(b, Ties(a[0], leq))[0] == b[0];
      forall k ensures Filter(a[1..], Ties(k, leq)) == Filter(b[1..], Ties(k, leq)) {
        assert Filter(a, Ties(k, leq)) == Filter(b, Ties(k, leq));
        if Ties(k, leq)(a[0]) {
          assert Filter(a, Ties(k, leq))[1..] == Filter(a[1..], Ties(k, leq));
          assert Filter(b, Ties(k, leq))[1..] == Filter(b[1..], Ties(k, leq));
        }
      }
      SortedTiesUnique(a[1..], b[1..], leq);
      assert a == [a[0]] + a[1..] && b == [b[0]] + b[1..];
    }
  }

  /** Whatever algorithm is used, a stable sort is this one. */
  lemma OnlyStableSort<T(!new)>(s: seq<T>, r: seq<T>, leq: (T, T) -> bool)
    requires TotalPreorder(leq) && StablySorts(s, r, leq)
    ensures r == Sort(s, leq)
  {
    SortIsStable(s, leq);
    SortedTiesUnique(r, Sort(s, leq), leq);
  }

  // ---------------------------------------------------------------- cutting to a limit

  function Take<T>(s: seq<T>, n: nat): seq<T> {
    if n <= |s| then s[..n] else s
  }

  /** `r` is the beginning of a stable order of `s`. */
  ghost predicate HeadOfStableSort<T(!new)>(s: seq<T>, r: seq<T>, leq: (T, T) -> bool) {
    exists o :: StablySorts(s, o, leq) && |r| <= |o| && r == o[..|r|]
  }

  lemma TakeOfSort<T(!new)>(s: seq<T>, leq: (T, T) -> bool, n: nat)
    requires TotalPreorder(leq)
    ensures HeadOfStableSort(s, Take(Sort(s, leq), n), leq)
    ensures |Take(Sort(s, leq), n)| == if |s| <= n then |s| else n
  {
    SortIsStable(s, leq);
    assert StablySorts(s, Sort(s, leq), leq);
  }

  /** Everything `p` holds of stands before everything it does not hold of. */
  ghost predicate Leads<T>(s: seq<T>, p: T -> bool) {
    forall i, j :: 0 <= i < j < |s| && p(s[j]) ==> p(s[i])
  }

  lemma LeadsNone<T(!new)>(s: seq<T>, p: T -> bool)
    requires Leads(s, p) && s != [] && !p(s[0])
    ensures forall x :: x in s ==> !p(x)
  {
  }

  lemma LeadsRest<T>(s: seq<T>, p: T -> bool)
    requires Leads(s, p) && s != []
    ensures Leads(s[1..], p)
  {
  }

  lemma TakeCons<T>(x: T, r: seq<T>, n: nat)
    requires n > 0
    ensures Take([x] + r, n) == [x] + Take(r, n - 1)
  {
  }

  lemma FilterCons<T(!new)>(x: T, r: seq<T>, p: T -> bool)
    requires p(x)
    ensures Filter([x] + r, p) == [x] + Filter(r, p)
  {
  }

  /** Where the chosen lead, cutting and choosing commute. */
  lemma TakeFilterHead<T(!new)>(x: T, rest: seq<T>, p: T -> bool, n: nat)
    requires p(x) && n > 0 && Filter(Take(rest, n - 1), p) == Take(Filter(rest, p), n - 1)
    ensures Filter(Take([x] + rest, n), p) == Take(Filter([x] + rest, p), n)
  {
    TakeCons(x, rest, n);
    FilterCons(x, rest, p);
    FilterCons(x, Take(rest, n - 1), p);
    TakeCons(x, Filter(rest, p), n);
  }

  lemma {:induction false} TakeFilter<T(!new)>(s: seq<T>, p: T -> bool, n: nat)
    requires Leads(s, p)
    ensures Filter(Take(s, n), p) == Take(Filter(s, p), n)
    decreases |s|
  {
    if s == [] || n == 0 {
    } else if p(s[0]) {
      var x, rest := s[0], s[1..];
      LeadsRest(s, p);
      TakeFilter(rest, p, n - 1);
      assert s == [x] + rest;
      TakeFilterHead(x, rest, p, n);
    } else {
      LeadsNone(s, p);
      FilterNone(s, p);
      FilterNone(Take(s, n), p);
    }
  }
}

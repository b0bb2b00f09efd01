/** Sequence vocabulary shared by the models: comprehension filters, first occurrences,
    counting, and the stable sort behind Python's `list.sort(key=...)`. */
module Seqs {

  datatype Option<+T> = None | Some(value: T) {
    function GetOr(default: T): T {
      if Some? then value else default
    }
  }

  // ---------------------------------------------------------------- filters

  /** The list comprehension `[x for x in s if p(x)]`. */
  function Filter<T>(s: seq<T>, p: T -> bool): (r: seq<T>)
    ensures |r| <= |s|
    ensures forall x :: x in r ==> x in s && p(x)
    ensures forall x :: x in s && p(x) ==> x in r
  {
    if s == [] then []
    else (if p(s[0]) then [s[0]] else []) + Filter(s[1..], p)
  }

  lemma {:induction false} FilterAppend<T>(a: seq<T>, b: seq<T>, p: T -> bool)
    ensures Filter(a + b, p) == Filter(a, p) + Filter(b, p)
  {
    if a == [] {
      assert a + b == b;
    } else {
      assert (a + b)[1..] == a[1..] + b;
      FilterAppend(a[1..], b, p);
    }
  }

  /** One loop iteration of a filtering `for` loop. */
  lemma FilterSnoc<T>(s: seq<T>, i: nat, p: T -> bool)
    requires i < |s|
    ensures Filter(s[..i + 1], p) == Filter(s[..i], p) + (if p(s[i]) then [s[i]] else [])
  {
    assert s[..i + 1] == s[..i] + [s[i]];
    FilterAppend(s[..i], [s[i]], p);
  }

  /** Filtering with predicates that agree on the members gives the same list. */
  lemma {:induction false} FilterAgree<T>(s: seq<T>, p: T -> bool, q: T -> bool)
    requires forall x :: x in s ==> p(x) == q(x)
    ensures Filter(s, p) == Filter(s, q)
  {
    if s != [] {
      FilterAgree(s[1..], p, q);
    }
  }

  /** Filtering twice is filtering by both predicates. */
  lemma {:induction false} FilterThen<T>(s: seq<T>, p: T -> bool, q: T -> bool, both: T -> bool)
    requires forall x :: x in s ==> both(x) == (p(x) && q(x))
    ensures Filter(Filter(s, p), q) == Filter(s, both)
  {
    if s != [] {
      FilterThen(s[1..], p, q, both);
      FilterAppend(if p(s[0]) then [s[0]] else [], Filter(s[1..], p), q);
    }
  }

  lemma {:induction false} FilterAll<T>(s: seq<T>, p: T -> bool)
    requires forall x :: x in s ==> p(x)
    ensures Filter(s, p) == s
  {
    if s != [] {
      FilterAll(s[1..], p);
    }
  }

  lemma {:induction false} FilterNone<T>(s: seq<T>, p: T -> bool)
    requires forall x :: x in s ==> !p(x)
    ensures Filter(s, p) == []
  {
    if s != [] {
      FilterNone(s[1..], p);
    }
  }

  ghost predicate NoDuplicates<T>(s: seq<T>) {
    forall i, j :: 0 <= i < j < |s| ==> s[i] != s[j]
  }

  function Map<S, T>(s: seq<S>, f: S -> T): (r: seq<T>)
    ensures |r| == |s|
    ensures forall i :: 0 <= i < |s| ==> r[i] == f(s[i])
  {
    seq(|s|, i requires 0 <= i < |s| => f(s[i]))
  }

  // ---------------------------------------------------------------- counting

  /** `sum(1 for x in s if p(x))`. */
  function Count<T>(s: seq<T>, p: T -> bool): nat {
    if s == [] then 0 else (if p(s[0]) then 1 else 0) + Count(s[1..], p)
  }

  lemma {:induction false} CountAppend<T>(a: seq<T>, b: seq<T>, p: T -> bool)
    ensures Count(a + b, p) == Count(a, p) + Count(b, p)
  {
    if a == [] {
      assert a + b == b;
    } else {
      assert (a + b)[1..] == a[1..] + b;
      CountAppend(a[1..], b, p);
    }
  }

  lemma CountSnoc<T>(s: seq<T>, i: nat, p: T -> bool)
    requires i < |s|
    ensures Count(s[..i + 1], p) == Count(s[..i], p) + (if p(s[i]) then 1 else 0)
  {
    assert s[..i + 1] == s[..i] + [s[i]];
    CountAppend(s[..i], [s[i]], p);
  }

  lemma CountUpdate<T>(s: seq<T>, i: nat, x: T, p: T -> bool)
    requires i < |s|
    ensures Count(s[i := x], p) == Count(s, p) - (if p(s[i]) then 1 else 0) + (if p(x) then 1 else 0)
  {
    var u := s[i := x];
    assert s == s[..i] + ([s[i]] + s[i + 1..]) && u == s[..i] + ([x] + s[i + 1..]);
    CountAppend(s[..i], [s[i]] + s[i + 1..], p);
    CountAppend(s[..i], [x] + s[i + 1..], p);
  }

  /** A member's place in a filtered list is the number of kept members before it. */
  lemma FilterPlace<T>(s: seq<T>, i: nat, p: T -> bool)
    requires i < |s| && p(s[i])
    ensures Count(s[..i], p) < |Filter(s, p)| && Filter(s, p)[Count(s[..i], p)] == s[i]
  {
    assert s == s[..i] + ([s[i]] + s[i + 1..]);
    FilterAppend(s[..i], [s[i]] + s[i + 1..], p);
    FilterLength(s[..i], p);
  }

  lemma {:induction false} FilterLength<T>(s: seq<T>, p: T -> bool)
    ensures |Filter(s, p)| == Count(s, p)
  {
    if s != [] {
      FilterLength(s[1..], p);
    }
  }

  lemma {:induction false} CountAgree<T>(s: seq<T>, p: T -> bool, q: T -> bool)
    requires forall x :: x in s ==> p(x) == q(x)
    ensures Count(s, p) == Count(s, q)
  {
    if s != [] {
      CountAgree(s[1..], p, q);
    }
  }

  lemma {:induction false} CountZero<T>(s: seq<T>, p: T -> bool)
    requires forall x :: x in s ==> !p(x)
    ensures Count(s, p) == 0
  {
    if s != [] {
      CountZero(s[1..], p);
    }
  }

  /** `sum(f(x) for x in s)`. */
  function Sum<T>(s: seq<T>, f: T -> int): int {
    if s == [] then 0 else f(s[0]) + Sum(s[1..], f)
  }

  lemma {:induction false} SumAppend<T>(a: seq<T>, b: seq<T>, f: T -> int)
    ensures Sum(a + b, f) == Sum(a, f) + Sum(b, f)
  {
    if a == [] {
      assert a + b == b;
    } else {
      assert (a + b)[1..] == a[1..] + b;
      SumAppend(a[1..], b, f);
    }
  }

  lemma SumSplit<T>(s: seq<T>, i: nat, f: T -> int)
    requires i < |s|
    ensures Sum(s, f) == Sum(s[..i], f) + f(s[i]) + Sum(s[i + 1..], f)
  {
    assert s == s[..i] + s[i..];
    SumAppend(s[..i], s[i..], f);
  }

  lemma SumUpdate<T>(s: seq<T>, i: nat, x: T, f: T -> int)
    requires i < |s|
    ensures Sum(s[i := x], f) == Sum(s, f) - f(s[i]) + f(x)
  {
    SumSplit(s, i, f);
    SumSplit(s[i := x], i, f);
    assert s[i := x][..i] == s[..i] && s[i := x][i + 1..] == s[i + 1..];
  }

  lemma SumSnoc<T>(s: seq<T>, x: T, f: T -> int)
    ensures Sum(s + [x], f) == Sum(s, f) + f(x)
  {
    SumAppend(s, [x], f);
  }

  // ---------------------------------------------------------------- first occurrences

  /** What a loop with a `seen` set keeps: each member once, at its first position. */
  function FirstOccurrences<T(==)>(s: seq<T>): (r: seq<T>)
  {
    if s == [] then []
    else
      var front := FirstOccurrences(s[..|s| - 1]);
      var x := s[|s| - 1];
      if x in front then front else front + [x]
  }

  function IndexOf<T(==)>(s: seq<T>, x: T): (i: nat)
    requires x in s
    ensures i < |s| && s[i] == x
    ensures forall k :: 0 <= k < i ==> s[k] != x
  {
    if s[0] == x then 0 else IndexOf(s[1..], x) + 1
  }

  lemma {:induction false} FirstOccurrencesMembers<T>(s: seq<T>)
    ensures NoDuplicates(FirstOccurrences(s))
    ensures forall x :: x in FirstOccurrences(s) ==> x in s
    ensures forall x :: x in s ==> x in FirstOccurrences(s)
    ensures |FirstOccurrences(s)| <= |s|
  {
    if s != [] {
      FirstOccurrencesMembers(s[..|s| - 1]);
      assert s == s[..|s| - 1] + [s[|s| - 1]];
    }
  }

  /** The kept members stand in the order in which they first appear. */
  lemma {:induction false} FirstOccurrencesOrder<T>(s: seq<T>, i: nat, j: nat)
    requires i < j < |FirstOccurrences(s)|
    requires FirstOccurrences(s)[i] in s && FirstOccurrences(s)[j] in s
    ensures IndexOf(s, FirstOccurrences(s)[i]) < IndexOf(s, FirstOccurrences(s)[j])
  {
    var n := |s| - 1;
    var front := FirstOccurrences(s[..n]);
    FirstOccurrencesMembers(s[..n]);
    var a, b := FirstOccurrences(s)[i], FirstOccurrences(s)[j];
    assert a in s[..n];
    IndexOfPrefix(s, n, a);
    if b in front {
      FirstOccurrencesOrder(s[..n], i, j);
      IndexOfPrefix(s, n, b);
    } else {
      assert b !in s[..n];
      assert forall k :: 0 <= k < n ==> s[k] in s[..n];
    }
  }

  lemma IndexOfPrefix<T>(s: seq<T>, n: nat, x: T)
    requires n <= |s| && x in s[..n]
    ensures x in s && IndexOf(s, x) == IndexOf(s[..n], x)
  {
    assert s[IndexOf(s[..n], x)] == x;
    assert forall k :: 0 <= k < IndexOf(s[..n], x) ==> s[k] == s[..n][k];
  }

  // ---------------------------------------------------------------- stable sort

  ghost predicate TotalPreorder<T(!new)>(le: (T, T) -> bool) {
    && (forall x, y :: le(x, y) || le(y, x))
    && (forall x, y, z :: le(x, y) && le(y, z) ==> le(x, z))
  }

  ghost predicate SortedBy<T>(s: seq<T>, le: (T, T) -> bool) {
    forall i, j :: 0 <= i < j < |s| ==> le(s[i], s[j])
  }

  /** Puts x in front of the first member that may follow it. */
  function Insert<T>(x: T, s: seq<T>, le: (T, T) -> bool): seq<T> {
    if s == [] || le(x, s[0]) then [x] + s else [s[0]] + Insert(x, s[1..], le)
  }

  /** `s.sort(key=...)`: ascending, and members with equal keys keep their order. */
  function StableSort<T>(s: seq<T>, le: (T, T) -> bool): seq<T> {
    if s == [] then [] else Insert(s[0], StableSort(s[1..], le), le)
  }

  lemma {:induction false} InsertContents<T>(x: T, s: seq<T>, le: (T, T) -> bool)
    ensures multiset(Insert(x, s, le)) == multiset(s) + multiset{x}
    ensures |Insert(x, s, le)| == |s| + 1
  {
    if s != [] && !le(x, s[0]) {
      InsertContents(x, s[1..], le);
      assert s == [s[0]] + s[1..];
    }
  }

  lemma {:induction false} SortIsPermutation<T>(s: seq<T>, le: (T, T) -> bool)
    ensures multiset(StableSort(s, le)) == multiset(s)
  {
    if s != [] {
      SortIsPermutation(s[1..], le);
      InsertContents(s[0], StableSort(s[1..], le), le);
      assert s == [s[0]] + s[1..];
    }
  }

  lemma SameContents<T>(a: seq<T>, b: seq<T>)
    requires multiset(a) == multiset(b)
    ensures |a| == |b|
    ensures forall x :: x in a <==> x in b
  {
    assert |a| == |multiset(a)| && |b| == |multiset(b)|;
    forall x ensures x in a <==> x in b {
      assert x in a <==> x in multiset(a);
      assert x in b <==> x in multiset(b);
    }
  }

  lemma SortContents<T>(s: seq<T>, le: (T, T) -> bool)
    ensures multiset(StableSort(s, le)) == multiset(s)
    ensures |StableSort(s, le)| == |s|
    ensures forall x :: x in StableSort(s, le) <==> x in s
  {
    SortIsPermutation(s, le);
    SameContents(StableSort(s, le), s);
  }

  lemma {:induction false} InsertSorted<T(!new)>(x: T, s: seq<T>, le: (T, T) -> bool)
    requires TotalPreorder(le) && SortedBy(s, le)
    ensures SortedBy(Insert(x, s, le), le)
  {
    if s == [] || le(x, s[0]) {
    } else {
      InsertSorted(x, s[1..], le);
      InsertContents(x, s[1..], le);
      var tail := Insert(x, s[1..], le);
      forall j | 0 <= j < |tail| ensures le(s[0], tail[j]) {
        assert tail[j] in multiset(tail);
        assert tail[j] == x || tail[j] in s[1..];
      }
    }
  }

  lemma {:induction false} SortSorted<T(!new)>(s: seq<T>, le: (T, T) -> bool)
    requires TotalPreorder(le)
    ensures SortedBy(StableSort(s, le), le)
  {
    if s != [] {
      SortSorted(s[1..], le);
      InsertSorted(s[0], StableSort(s[1..], le), le);
    }
  }

  /** Neither of the two has to stand before the other. */
  function Tied<T>(le: (T, T) -> bool, k: T): T -> bool {
    (y: T) => le(y, k) && le(k, y)
  }

  /** Stability: the members of any one key class keep their order. */
  lemma {:induction false} InsertStable<T(!new)>(x: T, s: seq<T>, le: (T, T) -> bool, k: T)
    requires TotalPreorder(le) && SortedBy(s, le)
    ensures Filter(Insert(x, s, le), Tied(le, k)) == (if Tied(le, k)(x) then [x] else []) + Filter(s, Tied(le, k))
  {
    if s == [] || le(x, s[0]) {
      FilterAppend([x], s, Tied(le, k));
    } else {
      InsertStable(x, s[1..], le, k);
      FilterAppend([s[0]], Insert(x, s[1..], le), Tied(le, k));
    }
  }

  lemma {:induction false} SortStable<T(!new)>(s: seq<T>, le: (T, T) -> bool, k: T)
    requires TotalPreorder(le)
    ensures Filter(StableSort(s, le), Tied(le, k)) == Filter(s, Tied(le, k))
  {
    if s != [] {
      SortStable(s[1..], le, k);
      SortSorted(s[1..], le);
      InsertStable(s[0], StableSort(s[1..], le), le, k);
    }
  }

  lemma TiedHeads<T(!new)>(a: seq<T>, b: seq<T>, le: (T, T) -> bool)
    requires TotalPreorder(le) && SortedBy(a, le) && SortedBy(b, le) && a != []
    requires forall k :: Filter(a, Tied(le, k)) == Filter(b, Tied(le, k))
    ensures b != [] && le(b[0], a[0])
  {
    assert le(a[0], a[0]);
    FilterUnfold(a, Tied(le, a[0]));
    assert a[0] in Filter(b, Tied(le, a[0]));
    HeadOfSorted(b, a[0], le);
  }

  lemma TailsAgree<T>(a: seq<T>, b: seq<T>, p: T -> bool)
    requires a != [] && b != [] && a[0] == b[0] && Filter(a, p) == Filter(b, p)
    ensures Filter(a[1..], p) == Filter(b[1..], p)
  {
    FilterUnfold(a, p);
    FilterUnfold(b, p);
  }

  /** A sorted list is determined by its key classes. */
  lemma {:induction false} SortedByClasses<T(!new)>(a: seq<T>, b: seq<T>, le: (T, T) -> bool)
    requires TotalPreorder(le) && SortedBy(a, le) && SortedBy(b, le)
    requires forall k :: Filter(a, Tied(le, k)) == Filter(b, Tied(le, k))
    ensures a == b
    decreases |a| + |b|
  {
    if a != [] {
      TiedHeads(a, b, le);
      TiedHeads(b, a, le);
      FilterUnfold(a, Tied(le, a[0]));
      FilterUnfold(b, Tied(le, a[0]));
      forall k ensures Filter(a[1..], Tied(le, k)) == Filter(b[1..], Tied(le, k)) {
        TailsAgree(a, b, Tied(le, k));
      }
      SortedByClasses(a[1..], b[1..], le);
      assert a == [a[0]] + a[1..] && b == [b[0]] + b[1..];
    } else if b != [] {
      TiedHeads(b, a, le);
    }
  }

  /** Two lists sort to the same list exactly when their key classes agree. */
  lemma SortsAgree<T(!new)>(a: seq<T>, b: seq<T>, le: (T, T) -> bool)
    requires TotalPreorder(le)
    ensures StableSort(a, le) == StableSort(b, le) <==> forall k :: Filter(a, Tied(le, k)) == Filter(b, Tied(le, k))
  {
    forall k ensures Filter(StableSort(a, le), Tied(le, k)) == Filter(a, Tied(le, k)) { SortStable(a, le, k); }
    forall k ensures Filter(StableSort(b, le), Tied(le, k)) == Filter(b, Tied(le, k)) { SortStable(b, le, k); }
    SortSorted(a, le);
    SortSorted(b, le);
    if forall k :: Filter(a, Tied(le, k)) == Filter(b, Tied(le, k)) {
      forall k ensures Filter(StableSort(a, le), Tied(le, k)) == Filter(StableSort(b, le), Tied(le, k)) {
        assert Filter(a, Tied(le, k)) == Filter(b, Tied(le, k));
      }
      SortedByClasses(StableSort(a, le), StableSort(b, le), le);
    } else {
      var k :| Filter(a, Tied(le, k)) != Filter(b, Tied(le, k));
      assert Filter(StableSort(a, le), Tied(le, k)) != Filter(StableSort(b, le), Tied(le, k));
    }
  }

  lemma MapSnoc<S, T>(s: seq<S>, x: S, f: S -> T)
    ensures Map(s + [x], f) == Map(s, f) + [f(x)]
    ensures s + [] == s
  {
  }

  lemma MapCons<S, T>(x: S, s: seq<S>, f: S -> T)
    ensures Map([x] + s, f) == [f(x)] + Map(s, f)
  {
  }

  lemma {:induction false} InsertMap<T>(x: T, s: seq<T>, le: (T, T) -> bool, f: T -> T)
    requires forall y, z :: le(f(y), f(z)) == le(y, z)
    ensures Map(Insert(x, s, le), f) == Insert(f(x), Map(s, f), le)
  {
    if s == [] || le(x, s[0]) {
      MapCons(x, s, f);
    } else {
      InsertMap(x, s[1..], le, f);
      MapCons(s[0], Insert(x, s[1..], le), f);
      assert Map(s, f)[1..] == Map(s[1..], f);
    }
  }

  /** Sorting commutes with a change of the members that their order does not see. */
  lemma {:induction false} SortMap<T>(s: seq<T>, le: (T, T) -> bool, f: T -> T)
    requires forall y, z :: le(f(y), f(z)) == le(y, z)
    ensures Map(StableSort(s, le), f) == StableSort(Map(s, f), le)
  {
    if s != [] {
      SortMap(s[1..], le, f);
      InsertMap(s[0], StableSort(s[1..], le), le, f);
      assert Map(s, f)[1..] == Map(s[1..], f);
    }
  }

  /** Once x may stand before a member, it may stand before all later ones. */
  ghost predicate UpClosed<T>(x: T, s: seq<T>, le: (T, T) -> bool) {
    forall i, j :: 0 <= i < j < |s| && le(x, s[i]) ==> le(x, s[j])
  }

  lemma SortedUpClosed<T(!new)>(x: T, s: seq<T>, le: (T, T) -> bool)
    requires TotalPreorder(le) && SortedBy(s, le)
    ensures UpClosed(x, s, le)
  {
  }

  /** A stable sort commutes with filtering. */
  lemma {:induction false} SortFilter<T(!new)>(s: seq<T>, le: (T, T) -> bool, p: T -> bool)
    requires TotalPreorder(le)
    ensures Filter(StableSort(s, le), p) == StableSort(Filter(s, p), le)
  {
    if s != [] {
      SortFilter(s[1..], le, p);
      SortSorted(s[1..], le);
      SortedUpClosed(s[0], StableSort(s[1..], le), le);
      InsertFilter(s[0], StableSort(s[1..], le), le, p);
      SortOfCons(s, le, p);
    }
  }

  lemma FilterUnfold<T>(s: seq<T>, p: T -> bool)
    requires s != []
    ensures p(s[0]) ==> Filter(s, p) != [] && Filter(s, p)[0] == s[0] && Filter(s, p)[1..] == Filter(s[1..], p)
    ensures !p(s[0]) ==> Filter(s, p) == Filter(s[1..], p)
  {
  }

  lemma SortOfCons<T>(s: seq<T>, le: (T, T) -> bool, p: T -> bool)
    requires s != []
    ensures StableSort(Filter(s, p), le)
         == if p(s[0]) then Insert(s[0], StableSort(Filter(s[1..], p), le), le) else StableSort(Filter(s[1..], p), le)
  {
    FilterUnfold(s, p);
    SortUnfold(Filter(s, p), le);
  }

  lemma SortUnfold<T>(s: seq<T>, le: (T, T) -> bool)
    ensures s != [] ==> StableSort(s, le) == Insert(s[0], StableSort(s[1..], le), le)
  {
  }

  lemma {:induction false} InsertFilter<T>(x: T, s: seq<T>, le: (T, T) -> bool, p: T -> bool)
    requires UpClosed(x, s, le)
    ensures Filter(Insert(x, s, le), p) == if p(x) then Insert(x, Filter(s, p), le) else Filter(s, p)
  {
    if s == [] {
    } else if le(x, s[0]) {
      assert Insert(x, s, le)[1..] == s;
      InsertAtFront(x, Filter(s, p), le, s);
    } else {
      InsertFilter(x, s[1..], le, p);
      assert Insert(x, s, le)[1..] == Insert(x, s[1..], le);
      InsertBehind(x, s, le, p);
    }
  }

  lemma InsertBehind<T>(x: T, s: seq<T>, le: (T, T) -> bool, p: T -> bool)
    requires s != [] && !le(x, s[0])
    ensures Insert(x, Filter(s, p), le)
         == (if p(s[0]) then [s[0]] else []) + Insert(x, Filter(s[1..], p), le)
  {
    FilterUnfold(s, p);
    if p(s[0]) {
      InsertUnfold(x, Filter(s, p), le);
    }
  }

  lemma InsertUnfold<T>(x: T, s: seq<T>, le: (T, T) -> bool)
    requires s != [] && !le(x, s[0])
    ensures Insert(x, s, le) == [s[0]] + Insert(x, s[1..], le)
  {
  }

  lemma InsertAtFront<T>(x: T, part: seq<T>, le: (T, T) -> bool, whole: seq<T>)
    requires forall y :: y in part ==> y in whole
    requires forall y :: y in whole ==> le(x, y)
    ensures Insert(x, part, le) == [x] + part
  {
    assert part != [] ==> part[0] in part;
  }

  /** Sorting is the identity on a sorted list. */
  lemma {:induction false} SortOfSorted<T(!new)>(s: seq<T>, le: (T, T) -> bool)
    requires SortedBy(s, le)
    ensures StableSort(s, le) == s
  {
    if s != [] {
      SortOfSorted(s[1..], le);
    }
  }

  lemma HeadOfSorted<T>(a: seq<T>, x: T, le: (T, T) -> bool)
    requires SortedBy(a, le) && x in a
    ensures x == a[0] || le(a[0], x)
  {
  }

  /** Sums do not depend on the order in which a list is sorted. */
  lemma {:induction false} SumOfInsert<T>(x: T, s: seq<T>, le: (T, T) -> bool, f: T -> int)
    ensures Sum(Insert(x, s, le), f) == f(x) + Sum(s, f)
  {
    if s != [] && !le(x, s[0]) {
      SumOfInsert(x, s[1..], le, f);
    }
  }

  lemma {:induction false} SumOfSort<T>(s: seq<T>, le: (T, T) -> bool, f: T -> int)
    ensures Sum(StableSort(s, le), f) == Sum(s, f)
  {
    if s != [] {
      SumOfSort(s[1..], le, f);
      SumOfInsert(s[0], StableSort(s[1..], le), le, f);
    }
  }

  // ---------------------------------------------------------------- lists without repeats

  lemma NoDuplicatesAsCounts<T(!new)>(s: seq<T>)
    ensures NoDuplicates(s) <==> forall x :: multiset(s)[x] <= 1
  {
    if s != [] {
      NoDuplicatesAsCounts(s[1..]);
      assert s == [s[0]] + s[1..];
      assert multiset(s) == multiset{s[0]} + multiset(s[1..]);
      if NoDuplicates(s) {
        assert forall i, j :: 0 <= i < j < |s[1..]| ==> s[1..][i] == s[i + 1] && s[1..][j] == s[j + 1];
        assert s[0] !in s[1..];
        assert s[0] !in multiset(s[1..]);
      } else {
        RepeatIsCounted(s);
      }
    }
  }

  lemma RepeatIsCounted<T(!new)>(s: seq<T>)
    requires !NoDuplicates(s)
    ensures exists x :: multiset(s)[x] > 1
  {
    var i, j :| 0 <= i < j < |s| && s[i] == s[j];
    assert s == s[..i] + ([s[i]] + (s[i + 1..j] + ([s[j]] + s[j + 1..])));
    assert multiset(s)[s[i]] > 1;
  }

  lemma SortNoDuplicates<T(!new)>(s: seq<T>, le: (T, T) -> bool)
    requires NoDuplicates(s)
    ensures NoDuplicates(StableSort(s, le))
  {
    SortContents(s, le);
    NoDuplicatesAsCounts(s);
    NoDuplicatesAsCounts(StableSort(s, le));
  }

  lemma {:induction false} FilterNoDuplicates<T>(s: seq<T>, p: T -> bool)
    requires NoDuplicates(s)
    ensures NoDuplicates(Filter(s, p))
  {
    if s != [] {
      assert forall i, j :: 0 <= i < j < |s[1..]| ==> s[1..][i] == s[i + 1] && s[1..][j] == s[j + 1];
      FilterNoDuplicates(s[1..], p);
      FilterUnfold(s, p);
    }
  }

  lemma AppendNoDuplicates<T>(a: seq<T>, b: seq<T>)
    requires NoDuplicates(a) && NoDuplicates(b) && forall x :: x in a ==> x !in b
    ensures NoDuplicates(a + b)
  {
    forall i, j | 0 <= i < j < |a + b| ensures (a + b)[i] != (a + b)[j] {
      if i < |a| <= j {
        assert a[i] in a && b[j - |a|] in b;
      }
    }
  }

  /** x stands somewhere before y. */
  ghost predicate Precedes<T>(s: seq<T>, x: T, y: T) {
    exists i, j :: 0 <= i < j < |s| && s[i] == x && s[j] == y
  }

  /** Two lists without repeats, of the same members in the same order, are equal. */
  lemma {:induction false} SameOrder<T>(a: seq<T>, b: seq<T>)
    requires NoDuplicates(a) && NoDuplicates(b) && (forall x :: x in a <==> x in b)
    requires forall i, j :: 0 <= i < j < |a| ==> Precedes(b, a[i], a[j])
    ensures a == b
  {
    assert b != [] ==> b[0] in a;
    if a != [] {
      assert a[0] in b;
      var i :| 0 <= i < |a| && a[i] == b[0];
      assert i > 0 ==> Precedes(b, a[0], a[i]);
      assert a == [a[0]] + a[1..] && b == [b[0]] + b[1..];
      forall x ensures x in a[1..] <==> x in b[1..] {
        assert x in a[1..] <==> x in a && x != a[0];
        assert x in b[1..] <==> x in b && x != b[0];
      }
      forall i, j | 0 <= i < j < |a[1..]| ensures Precedes(b[1..], a[1..][i], a[1..][j]) {
        var p, q :| 0 <= p < q < |b| && b[p] == a[i + 1] && b[q] == a[j + 1];
        assert b[1..][p - 1] == a[1..][i] && b[1..][q - 1] == a[1..][j];
      }
      SameOrder(a[1..], b[1..]);
    }
  }

  // ---------------------------------------------------------------- pages

  function Take<T>(s: seq<T>, n: nat): seq<T> {
    if n < |s| then s[..n] else s
  }

  lemma TakeSlice<T>(s: seq<T>, i: nat, n: nat)
    requires i <= |s|
    ensures |Take(s[i..], n)| == if |s| - i < n then |s| - i else n
    ensures Take(s[i..], n) == s[i..i + |Take(s[i..], n)|]
  {
  }

  lemma SliceSplit<T>(s: seq<T>, i: nat, j: nat)
    requires i <= j <= |s|
    ensures s[i..] == s[i..j] + s[j..]
  {
  }

  lemma SliceJoin<T>(s: seq<T>, i: nat, j: nat, k: nat)
    requires i <= j <= k <= |s|
    ensures s[i..j] + s[j..k] == s[i..k]
  {
  }

  /** The pages of a walk, put together. */
  function Concat<T>(pages: seq<seq<T>>): seq<T> {
    if pages == [] then [] else pages[0] + Concat(pages[1..])
  }

  /** One page in front of pages that deliver all that comes behind it. */
  lemma PageInFront<T>(page: seq<T>, pages: seq<seq<T>>, all: seq<T>, i: nat)
    requires i + |page| <= |all| && page == all[i..i + |page|] && Concat(pages) == all[i + |page|..]
    ensures Concat([page] + pages) == all[i..]
  {
    assert ([page] + pages)[1..] == pages;
    SliceSplit(all, i, i + |page|);
  }

  /** A list cut into pages from position i on. */
  function Slices<T>(s: seq<T>, i: nat, limit: nat): seq<seq<T>>
    requires i <= |s| && 1 <= limit
    decreases |s| - i
  {
    if i == |s| then []
    else if |s| - i <= limit then [s[i..]]
    else [s[i..i + limit]] + Slices(s, i + limit, limit)
  }

  lemma SliceStep<T>(s: seq<T>, i: nat, limit: nat, page: seq<T>)
    requires i < |s| && 1 <= limit && page != [] && i + |page| <= |s|
    requires |page| == (if |s| - i < limit then |s| - i else limit) && page == s[i..i + |page|]
    ensures Slices(s, i, limit) == [page] + Slices(s, i + |page|, limit)
  {
    if |s| - i <= limit {
      assert s[i..] == page;
    }
  }

  lemma {:induction false} SlicesCover<T>(s: seq<T>, i: nat, limit: nat)
    requires i <= |s| && 1 <= limit
    ensures Concat(Slices(s, i, limit)) == s[i..]
    decreases |s| - i
  {
    if limit < |s| - i {
      SlicesCover(s, i + limit, limit);
      PageInFront(s[i..i + limit], Slices(s, i + limit, limit), s, i);
    }
  }

  /** k = ceil(a / b) */
  predicate IsCeil(k: nat, a: nat, b: nat) {
    a <= k * b && (k > 0 ==> (k - 1) * b < a)
  }

  lemma CeilStep(k: nat, a: nat, b: nat)
    requires 0 < b && IsCeil(k, a, b) && 0 < a
    ensures IsCeil(k + 1, a + b, b)
  {
    assert (k + 1) * b == k * b + b;
    if k > 0 {
      assert (k - 1) * b == k * b - b;
    }
  }

  predicate NonEmptyPages<T>(pages: seq<seq<T>>, limit: nat) {
    forall k :: 0 <= k < |pages| ==> 1 <= |pages[k]| <= limit
  }

  lemma {:induction false} SlicesCount<T>(s: seq<T>, i: nat, limit: nat)
    requires i <= |s| && 1 <= limit
    ensures IsCeil(|Slices(s, i, limit)|, |s| - i, limit)
    ensures NonEmptyPages(Slices(s, i, limit), limit)
    decreases |s| - i
  {
    if limit < |s| - i {
      SlicesCount(s, i + limit, limit);
      CeilStep(|Slices(s, i + limit, limit)|, |s| - i - limit, limit);
    }
  }

  /** The pages that a client gets who asks with a cursor, moves it by what it got, and stops at
      an empty page or after some rounds. */
  function Pages<C, T>(page: C -> seq<T>, next: (seq<T>, C) -> C, c: C, rounds: nat): seq<seq<T>>
    decreases rounds
  {
    if rounds == 0 || page(c) == [] then [] else [page(c)] + Pages(page, next, next(page(c), c), rounds - 1)
  }

  /** The page is the slice of the list that begins at i, as long as the limit allows. */
  predicate IsSlice<T(==)>(page: seq<T>, all: seq<T>, i: nat, limit: nat) {
    i <= |all| && |page| == (if |all| - i < limit then |all| - i else limit) && page == all[i..i + |page|]
  }

  /** A cursor that stands at a position of the list gets the slice from there, and moves to
      where it ends. */
  ghost predicate Advances<C(!new), T>(page: C -> seq<T>, next: (seq<T>, C) -> C, at: (C, nat) -> bool, all: seq<T>,
      limit: nat) {
    forall c, i: nat {:trigger page(c), at(c, i)} :: at(c, i) ==>
      IsSlice(page(c), all, i, limit) && (page(c) != [] ==> at(next(page(c), c), i + |page(c)|))
  }

  lemma {:induction false} PagesAreSlices<C(!new), T>(page: C -> seq<T>, next: (seq<T>, C) -> C, at: (C, nat) -> bool,
      all: seq<T>, limit: nat, c: C, i: nat, rounds: nat)
    requires 1 <= limit && Advances(page, next, at, all, limit) && at(c, i) && i <= |all| && |all| - i <= rounds
    ensures Pages(page, next, c, rounds) == Slices(all, i, limit)
    decreases rounds
  {
    if rounds > 0 && page(c) != [] {
      PagesAreSlices(page, next, at, all, limit, next(page(c), c), i + |page(c)|, rounds - 1);
      SliceStep(all, i, limit, page(c));
    }
  }
}

/** Sequence tools shared by the models: options, concatenation of pieces, a stable sort. */
module Seqs {

  datatype Option<+T> = None | Some(value: T) {
    function GetOr(default: T): T {
      if Some? then value else default
    }
  }

  /** The pieces laid end to end: `concat_tables`, or reading a file's row groups in order. */
  function Flatten<T>(xss: seq<seq<T>>): (r: seq<T>)
  {
    if xss == [] then [] else xss[0] + Flatten(xss[1..])
  }

  lemma NothingFlat<T>()
    ensures Flatten<T>([]) == []
  {
  }

  lemma Associative<T>(a: seq<T>, b: seq<T>, c: seq<T>)
    ensures (a + b) + c == a + (b + c)
  {
  }

  lemma {:induction false} FlattenConcat<T>(xss: seq<seq<T>>, yss: seq<seq<T>>)
    ensures Flatten(xss + yss) == Flatten(xss) + Flatten(yss)
  {
    if xss == [] {
      assert xss + yss == yss;
    } else {
      var h, t := xss[0], xss[1..];
      FlattenConcat(t, yss);
      assert xss + yss == [h] + (t + yss);
      Associative(h, Flatten(t), Flatten(yss));
    }
  }

  lemma FlattenSnoc<T>(xss: seq<seq<T>>, ys: seq<T>)
    ensures Flatten(xss + [ys]) == Flatten(xss) + ys
  {
    FlattenConcat(xss, [ys]);
    assert Flatten([ys]) == ys + Flatten<T>([]);
  }

  lemma {:induction false} FlattenMember<T>(xss: seq<seq<T>>, x: T)
    ensures x in Flatten(xss) <==> exists p :: 0 <= p < |xss| && x in xss[p]
  {
    if xss != [] {
      FlattenMember(xss[1..], x);
      if p :| 0 <= p < |xss| && x in xss[p] {
        if p > 0 {
          assert x in xss[1..][p - 1];
        }
      }
      if p :| 0 <= p < |xss[1..]| && x in xss[1..][p] {
        assert x in xss[p + 1];
      }
    }
  }

  lemma RemoveAt<T>(s: seq<T>, p: nat)
    requires p < |s|
    ensures multiset(s) == multiset(s[..p] + s[p + 1..]) + multiset{s[p]}
  {
    assert s == s[..p] + [s[p]] + s[p + 1..];
  }

  function Map<A, B>(f: A -> B, s: seq<A>): (r: seq<B>)
    ensures |r| == |s|
    ensures forall i :: 0 <= i < |s| ==> r[i] == f(s[i])
  {
    seq(|s|, i requires 0 <= i < |s| => f(s[i]))
  }

  // ---------------------------------------------------------------- stable sort

  ghost predicate TotalPreorder<T(!new)>(le: (T, T) -> bool) {
    && (forall x, y :: le(x, y) || le(y, x))
    && (forall x, y, z :: le(x, y) && le(y, z) ==> le(x, z))
  }

  ghost predicate Sorted<T>(s: seq<T>, le: (T, T) -> bool) {
    forall i, j :: 0 <= i < j < |s| ==> le(s[i], s[j])
  }

  function Insert<T>(x: T, s: seq<T>, le: (T, T) -> bool): (r: seq<T>)
    ensures multiset(r) == multiset{x} + multiset(s)
  {
    if s == [] || le(x, s[0]) then
      [x] + s
    else
      assert s == [s[0]] + s[1..];
      [s[0]] + Insert(x, s[1..], le)
  }

  /** A stable sort: elements that compare equal keep their order. */
  function Sort<T>(s: seq<T>, le: (T, T) -> bool): (r: seq<T>)
    ensures multiset(r) == multiset(s)
    ensures |r| == |s|
  {
    if s == [] then []
    else
      assert s == [s[0]] + s[1..];
      var r := Insert(s[0], Sort(s[1..], le), le);
      assert |multiset(r)| == |multiset(s)|;
      r
  }

  lemma {:induction false} InsertSorted<T(!new)>(x: T, s: seq<T>, le: (T, T) -> bool)
    requires TotalPreorder(le) && Sorted(s, le)
    ensures Sorted(Insert(x, s, le), le)
  {
    if s != [] && !le(x, s[0]) {
      InsertSorted(x, s[1..], le);
      var t := Insert(x, s[1..], le);
      forall j | 0 <= j < |t| ensures le(s[0], t[j]) {
        assert t[j] in multiset(t);
        assert t[j] == x || t[j] in multiset(s[1..]);
      }
    }
  }

  lemma {:induction false} SortSorted<T(!new)>(s: seq<T>, le: (T, T) -> bool)
    requires TotalPreorder(le)
    ensures Sorted(Sort(s, le), le)
  {
    if s != [] {
      SortSorted(s[1..], le);
      InsertSorted(s[0], Sort(s[1..], le), le);
    }
  }

  lemma SortMember<T>(s: seq<T>, le: (T, T) -> bool, x: T)
    ensures x in Sort(s, le) <==> x in s
  {
    assert x in Sort(s, le) <==> x in multiset(Sort(s, le));
    assert x in s <==> x in multiset(s);
  }

  predicate AtMost(a: int, b: int) {
    a <= b
  }

  ghost predicate Increasing(s: seq<int>) {
    forall i, j :: 0 <= i < j < |s| ==> s[i] < s[j]
  }

  ghost predicate NonDecreasing(s: seq<int>) {
    forall i, j :: 0 <= i < j < |s| ==> s[i] <= s[j]
  }

  lemma {:induction false} SortOfSorted<T>(s: seq<T>, le: (T, T) -> bool)
    requires Sorted(s, le)
    ensures Sort(s, le) == s
  {
    if s != [] {
      SortOfSorted(s[1..], le);
    }
  }

  lemma SortedIff<T(!new)>(s: seq<T>, le: (T, T) -> bool)
    requires TotalPreorder(le)
    ensures Sort(s, le) == s <==> Sorted(s, le)
  {
    SortSorted(s, le);
    if Sorted(s, le) {
      SortOfSorted(s, le);
    }
  }

  // ---------------------------------------------------------------- filtering

  ghost predicate Distinct<T>(s: seq<T>) {
    forall i, j :: 0 <= i < j < |s| ==> s[i] != s[j]
  }

  function Filter<T>(s: seq<T>, p: T -> bool): seq<T> {
    if s == [] then [] else (if p(s[0]) then [s[0]] else []) + Filter(s[1..], p)
  }

  lemma FilterCons<T>(x: T, s: seq<T>, p: T -> bool)
    ensures Filter([x] + s, p) == (if p(x) then [x] + Filter(s, p) else Filter(s, p))
  {
    assert ([x] + s)[1..] == s;
  }

  lemma {:induction false} FilterConcat<T>(s: seq<T>, t: seq<T>, p: T -> bool)
    ensures Filter(s + t, p) == Filter(s, p) + Filter(t, p)
  {
    hide Filter;
    if s == [] {
      NothingKept(p);
      assert s + t == t;
    } else {
      FilterConcat(s[1..], t, p);
      FilterCons(s[0], s[1..], p);
      FilterCons(s[0], s[1..] + t, p);
      assert s == [s[0]] + s[1..];
      assert s + t == [s[0]] + (s[1..] + t);
    }
  }

  lemma NothingKept<T>(p: T -> bool)
    ensures Filter([], p) == []
  {
  }

  lemma FilterSnoc<T>(s: seq<T>, x: T, p: T -> bool)
    ensures Filter(s + [x], p) == (if p(x) then Filter(s, p) + [x] else Filter(s, p))
  {
    FilterConcat(s, [x], p);
    FilterCons(x, [], p);
    NothingKept(p);
    assert [x] + [] == [x];
  }

  lemma {:induction false} FilterMember<T>(s: seq<T>, p: T -> bool, x: T)
    ensures x in Filter(s, p) <==> x in s && p(x)
  {
    if s != [] {
      FilterMember(s[1..], p, x);
      assert s == [s[0]] + s[1..];
    }
  }

  lemma InsertFront<T>(x: T, s: seq<T>, le: (T, T) -> bool)
    requires s == [] || le(x, s[0])
    ensures Insert(x, s, le) == [x] + s
  {
  }

  lemma InsertBack<T>(x: T, h: T, t: seq<T>, le: (T, T) -> bool)
    requires !le(x, h)
    ensures Insert(x, [h] + t, le) == [h] + Insert(x, t, le)
  {
    assert ([h] + t)[1..] == t;
  }

  /** An element that goes to the front of a sorted list goes to the front of what is kept of it. */
  lemma FirstKept<T(!new)>(x: T, s: seq<T>, le: (T, T) -> bool, p: T -> bool)
    requires TotalPreorder(le) && Sorted(s, le) && (s == [] || le(x, s[0]))
    ensures Filter(s, p) == [] || le(x, Filter(s, p)[0])
  {
    if Filter(s, p) != [] {
      var y := Filter(s, p)[0];
      FilterMember(s, p, y);
      var k :| 0 <= k < |s| && s[k] == y;
      assert k > 0 ==> le(s[0], s[k]);
    }
  }

  lemma SortedTail<T>(s: seq<T>, le: (T, T) -> bool)
    requires s != [] && Sorted(s, le)
    ensures Sorted(s[1..], le)
  {
  }

  lemma {:induction false} FilterInsert<T(!new)>(x: T, s: seq<T>, le: (T, T) -> bool, p: T -> bool)
    requires TotalPreorder(le) && Sorted(s, le)
    ensures Filter(Insert(x, s, le), p) == if p(x) then Insert(x, Filter(s, p), le) else Filter(s, p)
  {
    hide Filter, Insert, TotalPreorder, Sorted;
    if s == [] || le(x, s[0]) {
      InsertFront(x, s, le);
      FilterCons(x, s, p);
      FirstKept(x, s, le, p);
      InsertFront(x, Filter(s, p), le);
    } else {
      var h, t := s[0], s[1..];
      assert s == [h] + t;
      SortedTail(s, le);
      FilterInsert(x, t, le, p);
      InsertBack(x, h, t, le);
      FilterCons(h, t, p);
      FilterCons(h, Insert(x, t, le), p);
      InsertBack(x, h, Filter(t, p), le);
    }
  }

  lemma SortCons<T>(x: T, t: seq<T>, le: (T, T) -> bool)
    ensures Sort([x] + t, le) == Insert(x, Sort(t, le), le)
  {
    assert ([x] + t)[1..] == t;
  }

  /** A stable sort does the same whether or not other elements are around. */
  lemma {:induction false} FilterSort<T(!new)>(s: seq<T>, le: (T, T) -> bool, p: T -> bool)
    requires TotalPreorder(le)
    ensures Filter(Sort(s, le), p) == Sort(Filter(s, p), le)
  {
    if s == [] {
      assert Sort(s, le) == [] && Filter(s, p) == [];
      return;
    }
    hide Filter, Insert, Sort, TotalPreorder;
    var x, t := s[0], s[1..];
    assert s == [x] + t;
    FilterSort(t, le, p);
    SortSorted(t, le);
    FilterInsert(x, Sort(t, le), le, p);
    SortCons(x, t, le);
    FilterCons(x, t, p);
    SortCons(x, Filter(t, p), le);
  }

  ghost predicate PairsSorted<T>(s: seq<T>, le: (T, T) -> bool, p: T -> bool) {
    forall i, j :: 0 <= i < j < |s| && p(s[i]) && p(s[j]) ==> le(s[i], s[j])
  }

  lemma PairsCons<T>(x: T, t: seq<T>, le: (T, T) -> bool, p: T -> bool)
    ensures PairsSorted([x] + t, le, p) <==> PairsSorted(t, le, p) && (p(x) ==> forall y :: y in t && p(y) ==> le(x, y))
  {
    var s := [x] + t;
    if PairsSorted(s, le, p) {
      forall i, j | 0 <= i < j < |t| && p(t[i]) && p(t[j]) ensures le(t[i], t[j]) {
        assert le(s[i + 1], s[j + 1]);
      }
      if p(x) {
        forall y | y in t && p(y) ensures le(x, y) {
          var k :| 0 <= k < |t| && t[k] == y;
          assert le(s[0], s[k + 1]);
        }
      }
    }
  }

  lemma {:induction false} FilterSorted<T>(s: seq<T>, le: (T, T) -> bool, p: T -> bool)
    ensures Sorted(Filter(s, p), le) <==> PairsSorted(s, le, p)
  {
    if s != [] {
      hide Filter, Sorted, PairsSorted;
      var x, t := s[0], s[1..];
      assert s == [x] + t;
      FilterSorted(t, le, p);
      FilterCons(x, t, p);
      SortedCons(x, Filter(t, p), le);
      PairsCons(x, t, le, p);
      FilterAll(x, t, le, p);
    }
  }

  lemma FilterAll<T>(x: T, t: seq<T>, le: (T, T) -> bool, p: T -> bool)
    ensures (forall y :: y in Filter(t, p) ==> le(x, y)) <==> (forall y :: y in t && p(y) ==> le(x, y))
  {
    forall y | y in Filter(t, p) ensures y in t && p(y) {
      FilterMember(t, p, y);
    }
    forall y | y in t && p(y) ensures y in Filter(t, p) {
      FilterMember(t, p, y);
    }
  }

  lemma SortedCons<T>(x: T, s: seq<T>, le: (T, T) -> bool)
    ensures Sorted([x] + s, le) <==> Sorted(s, le) && forall y :: y in s ==> le(x, y)
  {
    var t := [x] + s;
    if Sorted(t, le) {
      forall i, j | 0 <= i < j < |s| ensures le(s[i], s[j]) {
        assert le(t[i + 1], t[j + 1]);
      }
      forall y | y in s ensures le(x, y) {
        var k :| 0 <= k < |s| && s[k] == y;
        assert le(t[0], t[k + 1]);
      }
    }
  }

  // ---------------------------------------------------------------- folds that ignore order

  /** `op` combined over the images of the elements. */
  function Fold<T, U>(s: seq<T>, f: T -> U, op: (U, U) -> U, zero: U): U {
    if s == [] then zero else op(Fold(s[..|s| - 1], f, op, zero), f(s[|s| - 1]))
  }

  ghost predicate Commutes<U(!new)>(op: (U, U) -> U) {
    forall x, y, z :: op(op(x, y), z) == op(op(x, z), y)
  }

  lemma FoldSnoc<T, U>(s: seq<T>, x: T, f: T -> U, op: (U, U) -> U, zero: U)
    ensures Fold(s + [x], f, op, zero) == op(Fold(s, f, op, zero), f(x))
  {
    assert (s + [x])[..|s|] == s;
  }

  lemma {:induction false} FoldRemove<T, U(!new)>(s: seq<T>, p: nat, f: T -> U, op: (U, U) -> U, zero: U)
    requires Commutes(op) && p < |s|
    ensures Fold(s, f, op, zero) == op(Fold(s[..p] + s[p + 1..], f, op, zero), f(s[p]))
  {
    hide Fold;
    var n := |s| - 1;
    assert s == s[..n] + [s[n]];
    FoldSnoc(s[..n], s[n], f, op, zero);
    if p == n {
      assert s[..p] + s[p + 1..] == s[..n];
    } else {
      FoldRemove(s[..n], p, f, op, zero);
      var rest := s[..n][..p] + s[..n][p + 1..];
      assert s[..p] + s[p + 1..] == rest + [s[n]];
      FoldSnoc(rest, s[n], f, op, zero);
    }
  }

  /** Taking the last element of one arrangement out of another leaves arrangements of the same bag. */
  lemma TakeLast<T>(s: seq<T>, t: seq<T>) returns (p: nat)
    requires s != [] && multiset(s) == multiset(t)
    ensures p < |t| && t[p] == s[|s| - 1] && multiset(s[..|s| - 1]) == multiset(t[..p] + t[p + 1..])
  {
    var n := |s| - 1;
    assert s == s[..n] + [s[n]];
    assert s[n] in multiset(t);
    p :| 0 <= p < |t| && t[p] == s[n];
    RemoveAt(t, p);
    BagCancel(multiset(s[..n]), multiset(t[..p] + t[p + 1..]), multiset{s[n]});
  }

  lemma BagCancel<T>(a: multiset<T>, b: multiset<T>, c: multiset<T>)
    requires a + c == b + c
    ensures a == b
  {
    assert (a + c) - c == a && (b + c) - c == b;
  }

  lemma ConsBag<T>(x: T, t: seq<T>)
    ensures multiset([x] + t) == multiset{x} + multiset(t)
  {
  }

  lemma TailBag<T>(x: T, s: seq<T>, t: seq<T>)
    requires multiset([x] + s) == multiset([x] + t)
    ensures multiset(s) == multiset(t)
  {
    ConsBag(x, s);
    ConsBag(x, t);
    assert multiset([x] + s) - multiset{x} == multiset(s) && multiset([x] + t) - multiset{x} == multiset(t);
  }

  lemma SnocBag<T>(t: seq<T>, x: T)
    ensures multiset(t + [x]) == multiset(t) + multiset{x}
  {
  }

  lemma SameBag<T>(a: multiset<T>, b: multiset<T>)
    requires forall x :: x in a || x in b ==> a[x] == b[x]
    ensures a == b
  {
  }

  /** A fold whose operation ignores order is the same for every arrangement of a bag. */
  lemma {:induction false} FoldPermuted<T, U(!new)>(s: seq<T>, t: seq<T>, f: T -> U, op: (U, U) -> U, zero: U)
    requires Commutes(op) && multiset(s) == multiset(t)
    ensures Fold(s, f, op, zero) == Fold(t, f, op, zero)
  {
    assert |s| == |multiset(s)| && |t| == |multiset(t)|;
    if s != [] {
      var n := |s| - 1;
      var p := TakeLast(s, t);
      FoldPermuted(s[..n], t[..p] + t[p + 1..], f, op, zero);
      FoldRemove(t, p, f, op, zero);
    }
  }

  function Add(x: int, y: int): int {
    x + y
  }

  lemma AddCommutes()
    ensures Commutes(Add)
  {
  }

  // ---------------------------------------------------------------- the first largest element

  ghost predicate WeakOrder<T(!new)>(less: (T, T) -> bool) {
    && (forall x, y :: less(x, y) ==> !less(y, x))
    && (forall x, y, z :: less(x, z) ==> less(x, y) || less(y, z))
  }

  /** `max(range(len(s)), key=...)`: a later element wins only by being larger. */
  function FirstMax<T>(s: seq<T>, less: (T, T) -> bool): (m: nat)
    requires s != []
    ensures m < |s|
  {
    if |s| == 1 then 0
    else
      var m := FirstMax(s[..|s| - 1], less);
      if less(s[m], s[|s| - 1]) then |s| - 1 else m
  }

  lemma {:induction false} FirstMaxIsFirst<T(!new)>(s: seq<T>, less: (T, T) -> bool)
    requires s != [] && WeakOrder(less)
    ensures forall j :: 0 <= j < |s| ==> !less(s[FirstMax(s, less)], s[j])
    ensures forall j :: 0 <= j < FirstMax(s, less) ==> less(s[j], s[FirstMax(s, less)])
  {
    if |s| > 1 {
      var n := |s| - 1;
      FirstMaxIsFirst(s[..n], less);
      var m := FirstMax(s[..n], less);
      forall j | 0 <= j < n
        ensures !less(s[m], s[j])
        ensures j < m ==> less(s[j], s[m])
        ensures less(s[m], s[n]) ==> less(s[j], s[n])
      {
        assert s[..n][j] == s[j] && s[..n][m] == s[m];
      }
    }
  }
}

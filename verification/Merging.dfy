/**
 * `heapq.merge` of sorted lists: it compares elements with `less` only and, among heads that compare
 * equal, takes the earliest list.  `tag` names the list an element came from.
 */
module Merging {
  import opened Seqs

  /** A strict order whose incomparable elements are interchangeable, as a sort key gives. */
  ghost predicate StrictWeakOrder<T(!new)>(less: (T, T) -> bool) {
    && (forall x, y :: less(x, y) ==> !less(y, x))
    && (forall x, y, z :: less(x, y) && less(y, z) ==> less(x, z))
    && (forall x, y, z :: less(x, z) ==> less(x, y) || less(y, z))
  }

  /** By key, and among equal keys by list. */
  predicate Before<T>(less: (T, T) -> bool, tag: T -> int, a: T, b: T) {
    less(a, b) || (!less(b, a) && tag(a) < tag(b))
  }

  ghost predicate Ascending<T>(less: (T, T) -> bool, tag: T -> int, s: seq<T>) {
    forall i, j :: 0 <= i < j < |s| ==> Before(less, tag, s[i], s[j])
  }

  lemma BeforeTransitive<T(!new)>(less: (T, T) -> bool, tag: T -> int, a: T, b: T, c: T)
    requires StrictWeakOrder(less) && Before(less, tag, a, b) && Before(less, tag, b, c)
    ensures Before(less, tag, a, c) && !Before(less, tag, b, a) && !Before(less, tag, a, a)
  {
  }

  /** The list whose head has the smallest key, the first such list on ties. */
  function LeastHead<T(!new)>(less: (T, T) -> bool, lists: seq<seq<T>>): (r: Option<nat>)
    requires StrictWeakOrder(less)
    ensures r.None? <==> forall p :: 0 <= p < |lists| ==> lists[p] == []
    ensures r.Some? ==> r.value < |lists| && lists[r.value] != []
    ensures r.Some? ==> forall q :: 0 <= q < |lists| && lists[q] != [] ==> !less(lists[q][0], lists[r.value][0])
    ensures r.Some? ==> forall q :: 0 <= q < r.value && lists[q] != [] ==> less(lists[r.value][0], lists[q][0])
  {
    if lists == [] then None
    else
      var n := |lists| - 1;
      var best := LeastHead(less, lists[..n]);
      assert forall p :: 0 <= p < n ==> lists[..n][p] == lists[p];
      if lists[n] == [] then best
      else if best.None? || less(lists[n][0], lists[best.value][0]) then Some(n)
      else best
  }

  lemma PopHead<T>(lists: seq<seq<T>>, p: nat)
    requires p < |lists| && lists[p] != []
    ensures multiset(Flatten(lists)) == multiset{lists[p][0]} + multiset(Flatten(lists[p := lists[p][1..]]))
    ensures |Flatten(lists)| == 1 + |Flatten(lists[p := lists[p][1..]])|
  {
    var h, t := [lists[p][0]], lists[p][1..];
    assert lists[p] == h + t;
    assert lists == lists[..p] + [lists[p]] + lists[p + 1..];
    assert lists[p := t] == lists[..p] + [t] + lists[p + 1..];
    FlattenSnoc(lists[..p], lists[p]);
    FlattenSnoc(lists[..p], t);
    FlattenConcat(lists[..p] + [lists[p]], lists[p + 1..]);
    FlattenConcat(lists[..p] + [t], lists[p + 1..]);
    var a, c := Flatten(lists[..p]), Flatten(lists[p + 1..]);
    assert Flatten(lists) == a + (h + t) + c;
    assert Flatten(lists[p := t]) == a + t + c;
  }

  function HeapMerge<T(!new)>(less: (T, T) -> bool, lists: seq<seq<T>>): (r: seq<T>)
    requires StrictWeakOrder(less)
    ensures multiset(r) == multiset(Flatten(lists))
    decreases |Flatten(lists)|
  {
    match LeastHead(less, lists)
    case None =>
      AllEmpty(lists);
      []
    case Some(p) =>
      PopHead(lists, p);
      [lists[p][0]] + HeapMerge(less, lists[p := lists[p][1..]])
  }

  lemma {:induction false} AllEmpty<T>(lists: seq<seq<T>>)
    requires forall p :: 0 <= p < |lists| ==> lists[p] == []
    ensures Flatten(lists) == []
  {
    if lists != [] {
      AllEmpty(lists[1..]);
    }
  }

  /** Each list ascending, and list order agreeing with the tags. */
  ghost predicate Mergeable<T>(less: (T, T) -> bool, tag: T -> int, lists: seq<seq<T>>) {
    && (forall p :: 0 <= p < |lists| ==> Ascending(less, tag, lists[p]))
    && (forall p, q, a, b :: 0 <= p < q < |lists| && a in lists[p] && b in lists[q] ==> tag(a) < tag(b))
  }

  lemma HeapMergeMember<T(!new)>(less: (T, T) -> bool, lists: seq<seq<T>>, e: T)
    requires StrictWeakOrder(less)
    ensures e in HeapMerge(less, lists) <==> exists p :: 0 <= p < |lists| && e in lists[p]
  {
    FlattenMember(lists, e);
    assert e in HeapMerge(less, lists) <==> e in multiset(HeapMerge(less, lists));
    assert e in Flatten(lists) <==> e in multiset(Flatten(lists));
  }

  /** Comparing keys alone, the merge still comes out ordered by key and then by list. */
  lemma {:induction false} HeapMergeAscending<T(!new)>(less: (T, T) -> bool, tag: T -> int, lists: seq<seq<T>>)
    requires StrictWeakOrder(less) && Mergeable(less, tag, lists)
    ensures Ascending(less, tag, HeapMerge(less, lists))
    decreases |Flatten(lists)|
  {
    var best := LeastHead(less, lists);
    if best.Some? {
      var p := best.value;
      var rest := lists[p := lists[p][1..]];
      PopHead(lists, p);
      PopMergeable(less, tag, lists, p);
      HeapMergeAscending(less, tag, rest);
      HeadFirst(less, tag, lists, p);
      AscendingCons(less, tag, lists[p][0], HeapMerge(less, rest));
    }
  }

  lemma PopMergeable<T>(less: (T, T) -> bool, tag: T -> int, lists: seq<seq<T>>, p: nat)
    requires Mergeable(less, tag, lists) && p < |lists| && lists[p] != []
    ensures Mergeable(less, tag, lists[p := lists[p][1..]])
  {
    var rest := lists[p := lists[p][1..]];
    forall q | 0 <= q < |rest| ensures Ascending(less, tag, rest[q]) && forall a :: a in rest[q] ==> a in lists[q] {
      assert Ascending(less, tag, lists[q]);
    }
  }

  lemma AscendingCons<T>(less: (T, T) -> bool, tag: T -> int, h: T, s: seq<T>)
    requires Ascending(less, tag, s) && forall e :: e in s ==> Before(less, tag, h, e)
    ensures Ascending(less, tag, [h] + s)
  {
    var t := [h] + s;
    forall i, j | 0 <= i < j < |t| ensures Before(less, tag, t[i], t[j]) {
      assert t[j] == s[j - 1] && s[j - 1] in s;
      assert i > 0 ==> t[i] == s[i - 1];
    }
  }

  lemma HeadFirst<T(!new)>(less: (T, T) -> bool, tag: T -> int, lists: seq<seq<T>>, p: nat)
    requires StrictWeakOrder(less) && Mergeable(less, tag, lists) && LeastHead(less, lists) == Some(p)
    ensures forall e :: e in HeapMerge(less, lists[p := lists[p][1..]]) ==> Before(less, tag, lists[p][0], e)
  {
    var rest := lists[p := lists[p][1..]];
    forall e | e in HeapMerge(less, rest) ensures Before(less, tag, lists[p][0], e) {
      HeapMergeMember(less, rest, e);
      var q :| 0 <= q < |rest| && e in rest[q];
      HeadBefore(less, tag, lists, p, q, e);
    }
  }

  lemma HeadBefore<T(!new)>(less: (T, T) -> bool, tag: T -> int, lists: seq<seq<T>>, p: nat, q: nat, e: T)
    requires StrictWeakOrder(less) && Mergeable(less, tag, lists) && LeastHead(less, lists) == Some(p)
    requires q < |lists| && if q == p then e in lists[p][1..] else e in lists[q]
    ensures Before(less, tag, lists[p][0], e)
  {
    var i :| 0 <= i < |lists[q]| && lists[q][i] == e && (q == p ==> 0 < i);
    if q == p {
      assert Before(less, tag, lists[p][0], lists[p][i]);
    } else {
      var h, g := lists[p][0], lists[q][0];
      assert h in lists[p] && g in lists[q];
      assert Before(less, tag, h, g);
      if i > 0 {
        assert Before(less, tag, lists[q][0], lists[q][i]);
        BeforeTransitive(less, tag, h, g, e);
      }
    }
  }

  /** An ascending list is determined by its members. */
  lemma {:induction false} AscendingUnique<T(!new)>(less: (T, T) -> bool, tag: T -> int, s: seq<T>, t: seq<T>)
    requires StrictWeakOrder(less) && Ascending(less, tag, s) && Ascending(less, tag, t)
    requires forall e :: e in s <==> e in t
    ensures s == t
  {
    if s == [] {
      assert forall i :: 0 <= i < |t| ==> t[i] in s;
    } else {
      assert s[0] in t;
      SameHead(less, tag, s, t);
      HeadOnce(less, tag, s);
      HeadOnce(less, tag, t);
      assert s == [s[0]] + s[1..] && t == [t[0]] + t[1..];
      assert forall e :: e in s <==> e == s[0] || e in s[1..];
      assert forall e :: e in t <==> e == t[0] || e in t[1..];
      AscendingUnique(less, tag, s[1..], t[1..]);
    }
  }

  lemma HeadOnce<T(!new)>(less: (T, T) -> bool, tag: T -> int, s: seq<T>)
    requires StrictWeakOrder(less) && Ascending(less, tag, s) && s != []
    ensures s[0] !in s[1..]
  {
    forall i | 0 < i < |s| ensures s[i] != s[0] {
      assert Before(less, tag, s[0], s[i]);
    }
  }

  lemma HeadIsLeast<T>(less: (T, T) -> bool, tag: T -> int, s: seq<T>, x: T)
    requires Ascending(less, tag, s) && x in s
    ensures x == s[0] || Before(less, tag, s[0], x)
  {
    var i :| 0 <= i < |s| && s[i] == x;
    if i > 0 {
      assert Before(less, tag, s[0], s[i]);
    }
  }

  lemma SameHead<T(!new)>(less: (T, T) -> bool, tag: T -> int, s: seq<T>, t: seq<T>)
    requires StrictWeakOrder(less) && Ascending(less, tag, s) && Ascending(less, tag, t)
    requires s != [] && t != [] && s[0] in t && t[0] in s
    ensures s[0] == t[0]
  {
    HeadIsLeast(less, tag, s, t[0]);
    HeadIsLeast(less, tag, t, s[0]);
  }

  ghost predicate Comparable<T>(less: (T, T) -> bool, s: seq<T>) {
    forall i, j :: 0 <= i < j < |s| ==> less(s[i], s[j]) || less(s[j], s[i])
  }

  /** Sorting elements that no key calls equal gives a strictly ascending list. */
  lemma SortDistinct<T(!new)>(less: (T, T) -> bool, tag: T -> int, raw: seq<T>, le: (T, T) -> bool)
    requires StrictWeakOrder(less) && Comparable(less, raw)
    requires forall a, b :: le(a, b) <==> !less(b, a)
    ensures Ascending(less, tag, Sort(raw, le))
  {
    var out := Sort(raw, le);
    SortSorted(raw, le);
    forall i, j | 0 <= i < j < |out| ensures Before(less, tag, out[i], out[j]) {
      assert le(out[i], out[j]);
      PairIn(out, i, j);
      PairComparable(less, raw, out[i], out[j]);
    }
  }

  lemma PairComparable<T(!new)>(less: (T, T) -> bool, raw: seq<T>, a: T, b: T)
    requires StrictWeakOrder(less) && Comparable(less, raw) && multiset{a, b} <= multiset(raw)
    ensures less(a, b) || less(b, a)
  {
    OnceIn(raw, a);
    assert multiset{a, b}[a] <= 1;
    assert a in multiset(raw) && b in multiset(raw);
    var p :| 0 <= p < |raw| && raw[p] == a;
    var q :| 0 <= q < |raw| && raw[q] == b;
    assert a != b;
    assert p != q;
  }

  lemma PairIn<T>(s: seq<T>, i: nat, j: nat)
    requires i < j < |s|
    ensures multiset{s[i], s[j]} <= multiset(s)
  {
    assert s == s[..i] + [s[i]] + s[i + 1..j] + [s[j]] + s[j + 1..];
  }

  lemma {:induction false} OnceIn<T>(raw: seq<T>, x: T)
    requires Distinct(raw)
    ensures multiset(raw)[x] <= 1
  {
    if raw != [] {
      OnceIn(raw[1..], x);
      assert raw == [raw[0]] + raw[1..];
      assert raw[0] !in multiset(raw[1..]);
    }
  }
}

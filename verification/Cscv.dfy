/** Combinatorially symmetric cross-validation: chronological blocks, every half of them as the in-sample
    half, and the probability of backtest overfitting. */
module Cscv {

  import opened Seqs

  /** One row a configuration, one column a block. */
  type Matrix = seq<seq<real>>

  // ---------------------------------------------------------------- chronological blocks

  predicate Less(a: real, b: real) { a < b }

  lemma SortedDays(days: seq<int>)
    ensures Sorted(Sort(days, AtMost), AtMost)
  {
    SortSorted(days, AtMost);
  }

  /** Where block `j` of `s` starts when the first `n % s` blocks take one day more. */
  function BlockStart(n: nat, s: nat, j: nat): nat
    requires s >= 1
  {
    n / s * j + if j < n % s then j else n % s
  }

  lemma BlockNext(n: nat, s: nat, j: nat)
    requires s >= 1
    ensures BlockStart(n, s, 0) == 0
    ensures BlockStart(n, s, j + 1) == BlockStart(n, s, j) + n / s + if j < n % s then 1 else 0
    ensures BlockStart(n, s, s) == n
  {
    assert n / s * (j + 1) == n / s * j + n / s;
  }

  lemma {:induction false} BlockGrows(n: nat, s: nat, i: nat, j: nat)
    requires s >= 1 && i <= j
    ensures BlockStart(n, s, i) <= BlockStart(n, s, j)
    decreases j - i
  {
    hide BlockStart;
    if i < j {
      BlockGrows(n, s, i, j - 1);
      BlockNext(n, s, j - 1);
    }
  }

  lemma BlockEnds(n: nat, s: nat, j: nat)
    requires s >= 1 && j <= s
    ensures BlockStart(n, s, j) <= n
  {
    hide BlockStart;
    BlockGrows(n, s, j, s);
    BlockNext(n, s, j);
  }

  /** `size = base + (1 if j < rem else 0)`, one contiguous slice of the sorted days after another. */
  method ChronologicalBlocks(days: seq<int>, s: nat) returns (blocks: seq<seq<int>>)
    requires s >= 1
    ensures Partition(days, s, blocks)
  {
    hide BlockStart, Flatten, Sort, IsBlock;
    var ds := Sort(days, AtMost);
    var n, base, rem := |ds|, |ds| / s, |ds| % s;
    blocks := [];
    var i := 0;
    BlockNext(n, s, 0);
    NothingFlat<int>();
    for j := 0 to s
      invariant |blocks| == j && i == BlockStart(n, s, j) && i <= n
      invariant Flatten(blocks) == ds[..i]
      invariant forall k :: 0 <= k < j ==> IsBlock(ds, s, k, blocks[k])
    {
      var size := base + if j < rem then 1 else 0;
      BlockIs(ds, s, j);
      FlattenSnoc(blocks, ds[i..i + size]);
      assert ds[..i] + ds[i..i + size] == ds[..i + size];
      blocks := blocks + [ds[i..i + size]];
      i := i + size;
    }
    BlockNext(n, s, s);
    assert ds[..n] == ds;
  }

  lemma BlockIs(ds: seq<int>, s: nat, j: nat)
    requires s >= 1 && j < s
    ensures var from, to := BlockStart(|ds|, s, j), BlockStart(|ds|, s, j + 1);
            && from <= to <= |ds| && to == from + (|ds| / s + if j < |ds| % s then 1 else 0)
            && IsBlock(ds, s, j, ds[from..to])
  {
    hide BlockStart;
    BlockNext(|ds|, s, j);
    BlockEnds(|ds|, s, j + 1);
  }

  ghost predicate IsBlock(ds: seq<int>, s: nat, j: nat, block: seq<int>)
    requires s >= 1
  {
    var from, to := BlockStart(|ds|, s, j), BlockStart(|ds|, s, j + 1);
    from <= to <= |ds| && block == ds[from..to]
  }

  ghost predicate Partition(days: seq<int>, s: nat, blocks: seq<seq<int>>)
    requires s >= 1
  {
    && |blocks| == s && Flatten(blocks) == Sort(days, AtMost)
    && forall j :: 0 <= j < s ==> IsBlock(Sort(days, AtMost), s, j, blocks[j])
  }

  /** The blocks hold every day once, in time order, and their sizes differ by at most one; none is empty
      exactly when there are at least as many days as blocks. */
  lemma BlocksAreChronological(days: seq<int>, s: nat, blocks: seq<seq<int>>)
    requires s >= 1 && Partition(days, s, blocks)
    ensures multiset(Flatten(blocks)) == multiset(days)
    ensures forall i, j, a, b :: 0 <= i < j < s && 0 <= a < |blocks[i]| && 0 <= b < |blocks[j]| ==> blocks[i][a] <= blocks[j][b]
    ensures forall j :: 0 <= j < s ==> |blocks[j]| == |days| / s + if j < |days| % s then 1 else 0
    ensures (forall j :: 0 <= j < s ==> blocks[j] != []) <==> |days| >= s
  {
    var ds, n := Sort(days, AtMost), |days|;
    SortedDays(days);
    hide Flatten, Sort, BlockStart, AtMost;
    forall i, j, a, b | 0 <= i < j < s && 0 <= a < |blocks[i]| && 0 <= b < |blocks[j]| ensures blocks[i][a] <= blocks[j][b] {
      assert IsBlock(ds, s, i, blocks[i]) && IsBlock(ds, s, j, blocks[j]);
      BlockGrows(n, s, i + 1, j);
      InOrder(ds, BlockStart(n, s, i) + a, BlockStart(n, s, j) + b);
    }
    forall j | 0 <= j < s ensures |blocks[j]| == n / s + if j < n % s then 1 else 0 {
      assert IsBlock(ds, s, j, blocks[j]);
      BlockNext(n, s, j);
    }
    Quotient(n, s);
    assert |blocks[s - 1]| == n / s;
  }

  lemma Quotient(n: nat, s: nat)
    requires s >= 1
    ensures n / s >= 1 <==> n >= s
    ensures n % s <= s - 1
  {
  }

  lemma InOrder(ds: seq<int>, i: nat, j: nat)
    requires Sorted(ds, AtMost) && i < j < |ds|
    ensures ds[i] <= ds[j]
  {
    assert AtMost(ds[i], ds[j]);
  }

  // ---------------------------------------------------------------- combinations

  /** A choice of blocks, ascending. */
  ghost predicate Choice(c: seq<nat>, lo: nat, s: nat, k: nat) {
    && |c| == k
    && (forall i :: 0 <= i < |c| ==> lo <= c[i] < s)
    && (forall i, j :: 0 <= i < j < |c| ==> c[i] < c[j])
  }

  function Prepend(x: nat, cs: seq<seq<nat>>): (r: seq<seq<nat>>)
    ensures |r| == |cs|
    ensures forall i :: 0 <= i < |cs| ==> r[i] == [x] + cs[i]
  {
    if cs == [] then [] else [[x] + cs[0]] + Prepend(x, cs[1..])
  }

  /** `combinations(range(lo, s), k)`, in lexicographic order. */
  function Combinations(lo: nat, s: nat, k: nat): seq<seq<nat>>
    decreases s - lo
  {
    if k == 0 then [[]]
    else if lo >= s then []
    else Prepend(lo, Combinations(lo + 1, s, k - 1)) + Combinations(lo + 1, s, k)
  }

  lemma ChoiceTail(c: seq<nat>, lo: nat, s: nat, k: nat)
    requires Choice(c, lo, s, k) && k > 0
    ensures c[0] == lo ==> Choice(c[1..], lo + 1, s, k - 1)
    ensures c[0] != lo ==> Choice(c, lo + 1, s, k)
    ensures lo < s
  {
    forall i | 0 <= i < |c| ensures c[0] <= c[i] {
    }
  }

  lemma ChoicePrepend(c: seq<nat>, lo: nat, s: nat, k: nat)
    requires lo < s
    ensures Choice(c, lo + 1, s, k) ==> Choice([lo] + c, lo, s, k + 1) && Choice(c, lo, s, k)
  {
  }

  /** Every listed sequence is a choice. */
  /** The choices that take `lo` come first, then those that do not. */
  lemma CombinationsAt(lo: nat, s: nat, k: nat, i: nat)
    requires k > 0 && i < |Combinations(lo, s, k)|
    ensures lo < s
    ensures var first, second, c := Combinations(lo + 1, s, k - 1), Combinations(lo + 1, s, k), Combinations(lo, s, k)[i];
            if i < |first| then c == [lo] + first[i] else i - |first| < |second| && c == second[i - |first|]
  {
  }

  lemma NoneChosen(lo: nat, s: nat)
    ensures |Combinations(lo, s, 0)| == 1 && Choice(Combinations(lo, s, 0)[0], lo, s, 0)
  {
  }

  lemma {:induction false} CombinationsSound(lo: nat, s: nat, k: nat, i: nat)
    requires i < |Combinations(lo, s, k)|
    ensures Choice(Combinations(lo, s, k)[i], lo, s, k)
    decreases s - lo
  {
    hide *;
    if k == 0 {
      NoneChosen(lo, s);
    } else {
      CombinationsAt(lo, s, k, i);
      var first, second := Combinations(lo + 1, s, k - 1), Combinations(lo + 1, s, k);
      if i < |first| {
        CombinationsSound(lo + 1, s, k - 1, i);
        ChoicePrepend(first[i], lo, s, k - 1);
      } else {
        CombinationsSound(lo + 1, s, k, i - |first|);
        ChoicePrepend(second[i - |first|], lo, s, k);
      }
    }
  }

  /** Every choice is listed. */
  lemma {:induction false} CombinationsComplete(c: seq<nat>, lo: nat, s: nat, k: nat)
    requires Choice(c, lo, s, k)
    ensures c in Combinations(lo, s, k)
    decreases s - lo
  {
    if k == 0 {
      assert c == [];
    } else {
      ChoiceTail(c, lo, s, k);
      if c[0] == lo {
        CombinationsComplete(c[1..], lo + 1, s, k - 1);
        var cs := Combinations(lo + 1, s, k - 1);
        var i :| 0 <= i < |cs| && cs[i] == c[1..];
        assert Combinations(lo, s, k)[i] == [lo] + cs[i] == c;
      } else {
        CombinationsComplete(c, lo + 1, s, k);
      }
    }
  }

  lemma {:induction false} CombinationsDistinct(lo: nat, s: nat, k: nat)
    ensures Distinct(Combinations(lo, s, k))
    decreases s - lo
  {
    if k > 0 && lo < s {
      CombinationsDistinct(lo + 1, s, k - 1);
      CombinationsDistinct(lo + 1, s, k);
      hide Combinations;
      var cs := Combinations(lo, s, k);
      forall i, j | 0 <= i < j < |cs| ensures cs[i] != cs[j] {
        PairDiffers(lo, s, k, i, j);
      }
    }
  }

  lemma PairDiffers(lo: nat, s: nat, k: nat, i: nat, j: nat)
    requires k > 0 && i < j < |Combinations(lo, s, k)|
    requires Distinct(Combinations(lo + 1, s, k - 1)) && Distinct(Combinations(lo + 1, s, k))
    ensures Combinations(lo, s, k)[i] != Combinations(lo, s, k)[j]
  {
    hide Combinations;
    CombinationsAt(lo, s, k, i);
    CombinationsAt(lo, s, k, j);
    var first, second, cs := Combinations(lo + 1, s, k - 1), Combinations(lo + 1, s, k), Combinations(lo, s, k);
    if j < |first| {
      assert cs[i][1..] == first[i] && cs[j][1..] == first[j];
    } else if i < |first| {
      CombinationsSound(lo + 1, s, k, j - |first|);
      assert cs[i][0] == lo && cs[j][0] >= lo + 1;
    }
  }

  // ---------------------------------------------------------------- swapping IS and OOS

  /** `tuple(j for j in range(s) if j not in c)` */
  function Complement(c: seq<nat>, s: nat): seq<nat> {
    if s == 0 then [] else Complement(c, s - 1) + if s - 1 in c then [] else [s - 1]
  }

  lemma {:induction false} ComplementMember(c: seq<nat>, s: nat)
    ensures forall x: nat :: x in Complement(c, s) <==> x < s && x !in c
    ensures Increasing(Complement(c, s))
    ensures forall i :: 0 <= i < |Complement(c, s)| ==> Complement(c, s)[i] < s
  {
    if s > 0 {
      ComplementMember(c, s - 1);
    }
  }

  lemma {:induction false} ChoiceShort(c: seq<nat>, lo: nat, s: nat)
    requires Choice(c, lo, s, |c|) && lo <= s
    ensures |c| <= s - lo
    decreases |c|
  {
    if c != [] {
      ChoiceShort(c[1..], c[0] + 1, s);
    }
  }

  /** The blocks a choice takes among the first `s`. */
  lemma {:induction false} ComplementSize(c: seq<nat>, s: nat)
    requires Choice(c, 0, s, |c|)
    ensures |Complement(c, s)| + |c| == s
  {
    if s > 0 {
      var n := |c|;
      if n > 0 && c[n - 1] == s - 1 {
        var d := c[..n - 1];
        ComplementSize(d, s - 1);
        ComplementSame(c, d, s - 1);
      } else {
        forall i | 0 <= i < n ensures c[i] < s - 1 {
          assert c[i] <= c[n - 1];
        }
        ComplementSize(c, s - 1);
      }
    } else {
      ChoiceShort(c, 0, s);
    }
  }

  lemma {:induction false} ComplementSame(c: seq<nat>, d: seq<nat>, s: nat)
    requires forall x: nat :: x < s ==> (x in c <==> x in d)
    ensures Complement(c, s) == Complement(d, s)
  {
    if s > 0 {
      ComplementSame(c, d, s - 1);
    }
  }

  /** Two choices with the same members are the same sequence. */
  lemma {:induction false} ChoiceUnique(c: seq<nat>, d: seq<nat>, lo: nat, s: nat)
    requires Choice(c, lo, s, |c|) && Choice(d, lo, s, |c|) && forall x: nat :: x in c <==> x in d
    ensures c == d
    decreases |c|
  {
    if c != [] {
      var a, b := c[0], d[0];
      assert a in c && b in d;
      var i :| 0 <= i < |d| && d[i] == a;
      var j :| 0 <= j < |c| && c[j] == b;
      assert a == b;
      forall x: nat ensures x in c[1..] <==> x in d[1..] {
        Rest(c, x, lo, s);
        Rest(d, x, lo, s);
      }
      ChoiceUnique(c[1..], d[1..], lo, s);
      assert c == [a] + c[1..] && d == [b] + d[1..];
    }
  }

  lemma Rest(c: seq<nat>, x: nat, lo: nat, s: nat)
    requires Choice(c, lo, s, |c|) && c != []
    ensures x in c[1..] <==> x in c && x != c[0]
  {
    if x in c && x != c[0] {
      var i :| 0 <= i < |c| && c[i] == x;
      assert c[1..][i - 1] == x;
    }
  }

  /** Swapping the two halves of a split gives a split, and swapping again gives the first back. */
  lemma SwapIsASplit(c: seq<nat>, h: nat)
    requires c in Combinations(0, 2 * h, h)
    ensures Complement(c, 2 * h) in Combinations(0, 2 * h, h)
    ensures Complement(Complement(c, 2 * h), 2 * h) == c
    ensures forall x: nat :: x < 2 * h ==> (x in Complement(c, 2 * h) <==> x !in c)
  {
    var s := 2 * h;
    var cs := Combinations(0, s, h);
    var i :| 0 <= i < |cs| && cs[i] == c;
    CombinationsSound(0, s, h, i);
    var d := Complement(c, s);
    ComplementMember(c, s);
    ComplementSize(c, s);
    CombinationsComplete(d, 0, s, h);
    var e := Complement(d, s);
    ComplementMember(d, s);
    ComplementSize(d, s);
    forall x: nat ensures x in e <==> x in c {
    }
    ChoiceUnique(e, c, 0, s);
  }

  // ---------------------------------------------------------------- counting splits

  function Count<T>(cs: seq<T>, p: T -> bool): (r: nat)
    ensures r <= |cs|
  {
    if cs == [] then 0 else Count(cs[..|cs| - 1], p) + if p(cs[|cs| - 1]) then 1 else 0
  }

  ghost function Members<T(!new)>(cs: seq<T>, p: T -> bool): set<T> {
    set c | c in cs && p(c)
  }

  lemma {:induction false} CountIsMembers<T(!new)>(cs: seq<T>, p: T -> bool)
    requires Distinct(cs)
    ensures Count(cs, p) == |Members(cs, p)|
  {
    if cs != [] {
      var n := |cs| - 1;
      CountIsMembers(cs[..n], p);
      assert cs == cs[..n] + [cs[n]];
      assert cs[n] !in cs[..n];
      if p(cs[n]) {
        assert Members(cs, p) == Members(cs[..n], p) + {cs[n]};
      } else {
        assert Members(cs, p) == Members(cs[..n], p);
      }
    }
  }

  lemma {:induction false} CountSplits<T>(cs: seq<T>, p: T -> bool, q: T -> bool)
    requires forall i :: 0 <= i < |cs| ==> q(cs[i]) == !p(cs[i])
    ensures Count(cs, p) + Count(cs, q) == |cs|
  {
    if cs != [] {
      CountSplits(cs[..|cs| - 1], p, q);
    }
  }

  /** A one-to-one map from one set into another shows the first is no larger. */
  lemma {:induction false} NoLarger<T>(a: set<T>, b: set<T>, f: T -> T)
    requires forall x :: x in a ==> f(x) in b
    requires forall x, y :: x in a && y in a && f(x) == f(y) ==> x == y
    ensures |a| <= |b|
    decreases a
  {
    if a != {} {
      var x :| x in a;
      NoLarger(a - {x}, b - {f(x)}, f);
    }
  }

  /** If swapping turns every member with `p` into one without and back, half of them have it. */
  lemma HalfHave<T(!new)>(cs: seq<T>, p: T -> bool, q: T -> bool, swap: T -> T)
    requires Distinct(cs)
    requires forall c :: c in cs ==> swap(c) in cs && swap(swap(c)) == c && q(c) == !p(c) && p(swap(c)) == q(c)
    ensures 2 * Count(cs, p) == |cs|
  {
    var a, b := Members(cs, p), Members(cs, q);
    forall c | c in cs ensures q(swap(c)) == p(c) {
      assert p(swap(swap(c))) == q(swap(c));
    }
    forall x, y | x in cs && y in cs && swap(x) == swap(y) ensures x == y {
      assert x == swap(swap(x)) == swap(swap(y)) == y;
    }
    NoLarger(a, b, swap);
    NoLarger(b, a, swap);
    CountIsMembers(cs, p);
    CountIsMembers(cs, q);
    CountSplits(cs, p, q);
  }

  /** Each block is in sample in exactly half of the splits. */
  lemma EachBlockHalfInSample(h: nat, j: nat)
    requires j < 2 * h
    ensures 2 * Count(Combinations(0, 2 * h, h), (c: seq<nat>) => j in c) == |Combinations(0, 2 * h, h)|
    ensures |Combinations(0, 2 * h, h)| > 0
  {
    var cs, s := Combinations(0, 2 * h, h), 2 * h;
    CombinationsDistinct(0, s, h);
    forall c | c in cs ensures Complement(c, s) in cs && Complement(Complement(c, s), s) == c && (j in Complement(c, s) <==> j !in c) {
      SwapIsASplit(c, h);
    }
    HalfHave(cs, (c: seq<nat>) => j in c, (c: seq<nat>) => j !in c, (c: seq<nat>) => Complement(c, s));
    SomeSplit(h);
  }

  lemma SomeSplit(h: nat)
    ensures |Combinations(0, 2 * h, h)| > 0
  {
    CombinationsComplete(seq(h, i => i), 0, 2 * h, h);
  }

  // ---------------------------------------------------------------- performance, rank and odds

  function SumAt(row: seq<real>, blocks: seq<nat>): real
    requires forall i :: 0 <= i < |blocks| ==> blocks[i] < |row|
  {
    if blocks == [] then 0.0 else SumAt(row, blocks[..|blocks| - 1]) + row[blocks[|blocks| - 1]]
  }

  /** Every row has the columns the first one has; more do no harm. */
  predicate Shaped(m: Matrix, s: nat) {
    forall i :: 0 <= i < |m| ==> |m[i]| >= s
  }

  predicate Inside(c: seq<nat>, s: nat) {
    forall i :: 0 <= i < |c| ==> c[i] < s
  }

  /** `[sum(row[j] for j in blocks) / half for row in M]` */
  function PerfOf(m: Matrix, s: nat, c: seq<nat>, half: nat): (r: seq<real>)
    requires Shaped(m, s) && Inside(c, s) && half >= 1
    ensures |r| == |m|
    ensures forall i :: 0 <= i < |m| ==> r[i] == SumAt(m[i], c) / half as real
  {
    seq(|m|, i requires 0 <= i < |m| => SumAt(m[i], c) / half as real)
  }

  /** `_avg_rank`: one is worst, ties take the mean rank. */
  function AvgRank(values: seq<real>, idx: nat): real
    requires idx < |values|
  {
    Count(values, (x: real) => x < values[idx]) as real + (Count(values, (x: real) => x == values[idx]) as real + 1.0) / 2.0
  }

  lemma {:induction false} CountThree(values: seq<real>, v: real)
    ensures Count(values, (x: real) => x < v) + Count(values, (x: real) => x == v) + Count(values, (x: real) => x > v) == |values|
    ensures v in values ==> Count(values, (x: real) => x == v) >= 1
  {
    if values != [] {
      CountThree(values[..|values| - 1], v);
      assert values == values[..|values| - 1] + [values[|values| - 1]];
    }
  }

  /** The rank runs from one to N, and it is the middle one exactly when as many are better as worse. */
  lemma RankMeaning(values: seq<real>, idx: nat)
    requires idx < |values|
    ensures 1.0 <= AvgRank(values, idx) <= |values| as real
    ensures var worse, better := Count(values, (x: real) => x < values[idx]), Count(values, (x: real) => x > values[idx]);
            && (AvgRank(values, idx) < (|values| as real + 1.0) / 2.0 <==> worse < better)
            && (AvgRank(values, idx) == (|values| as real + 1.0) / 2.0 <==> worse == better)
            && 2.0 * AvgRank(values, idx) == (|values| + 1 + worse - better) as real
  {
    CountThree(values, values[idx]);
  }

  /** `w / (1 - w)`, whose logarithm is the split's lambda: the logarithm is negative exactly when this is
      below one, and zero exactly when it is one. */
  function Odds(rank: real, n: nat): real
    requires rank < n as real + 1.0
  {
    var w := rank / (n as real + 1.0);
    OddsDefined(rank, n);
    w / (1.0 - w)
  }

  lemma OddsDefined(rank: real, n: nat)
    requires rank < n as real + 1.0
    ensures rank / (n as real + 1.0) < 1.0
  {
    Ratio(rank, n as real + 1.0);
  }

  /** Lambda is negative exactly when the rank is below (N + 1) / 2, and zero exactly when it equals it. */
  lemma LambdaSign(rank: real, n: nat)
    requires rank < n as real + 1.0
    ensures Odds(rank, n) < 1.0 <==> rank < (n as real + 1.0) / 2.0
    ensures Odds(rank, n) == 1.0 <==> rank == (n as real + 1.0) / 2.0
  {
    var w := rank / (n as real + 1.0);
    OddsDefined(rank, n);
    assert w * (n as real + 1.0) == rank;
    Ratio(w, 1.0 - w);
    Share(rank, n as real + 1.0);
  }

  /** The odds are those of a share rank : N + 1 - rank. */
  lemma OddsAre(rank: real, n: nat)
    requires rank < n as real + 1.0
    ensures HalfOdds(Odds(rank, n), rank, n)
  {
    var t := n as real + 1.0;
    var w := rank / t;
    OddsDefined(rank, n);
    assert w * t == rank;
    assert (1.0 - w) * t == t - rank;
    var o := w / (1.0 - w);
    assert o * (1.0 - w) == w;
    assert o * ((1.0 - w) * t) == (o * (1.0 - w)) * t;
  }

  lemma Ratio(a: real, b: real)
    requires b > 0.0
    ensures a / b < 1.0 <==> a < b
    ensures a / b == 1.0 <==> a == b
  {
  }

  lemma Share(rank: real, total: real)
    requires total > 0.0
    ensures rank / total < 0.5 <==> rank < total / 2.0
    ensures rank / total == 0.5 <==> rank == total / 2.0
  {
  }

  // ---------------------------------------------------------------- one split

  /** The configuration best in sample; of equals, the first. */
  function Star(m: Matrix, s: nat, c: seq<nat>): (star: nat)
    requires Shaped(m, s) && Inside(c, s) && m != [] && s >= 2
    ensures star < |m|
  {
    FirstMax(PerfOf(m, s, c, s / 2), Less)
  }

  function StarRank(m: Matrix, s: nat, c: seq<nat>): real
    requires Shaped(m, s) && Inside(c, s) && m != [] && s >= 2
  {
    ComplementInside(c, s);
    AvgRank(PerfOf(m, s, Complement(c, s), s / 2), Star(m, s, c))
  }

  lemma ComplementInside(c: seq<nat>, s: nat)
    ensures Inside(Complement(c, s), s)
  {
    ComplementMember(c, s);
  }

  function LambdaOdds(m: Matrix, s: nat, c: seq<nat>): real
    requires Shaped(m, s) && Inside(c, s) && m != [] && s >= 2
  {
    ComplementInside(c, s);
    RankMeaning(PerfOf(m, s, Complement(c, s), s / 2), Star(m, s, c));
    Odds(StarRank(m, s, c), |m|)
  }

  // ---------------------------------------------------------------- the whole run

  datatype Outcome = Refused(configs: nat, blocks: nat) | Failed | Measured(splits: nat, odds: seq<real>, pbo: real)

  ghost predicate AllOdds(m: Matrix, s: nat, odds: seq<real>)
    requires Shaped(m, s) && m != [] && s >= 2
  {
    var cs := Combinations(0, s, s / 2);
    && |odds| == |cs|
    && forall i :: 0 <= i < |cs| ==> Inside(cs[i], s) && odds[i] == LambdaOdds(m, s, cs[i])
  }

  predicate Negative(odds: real) { odds < 1.0 }

  predicate Zero(odds: real) { odds == 1.0 }

  /** Half of the zeros count as overfit. */
  function Pbo(odds: seq<real>): real
    requires odds != []
  {
    (Count(odds, Negative) as real + 0.5 * Count(odds, Zero) as real) / |odds| as real
  }

  lemma CombinationInside(s: nat, k: nat, i: nat)
    requires i < |Combinations(0, s, k)|
    ensures Inside(Combinations(0, s, k)[i], s)
  {
    CombinationsSound(0, s, k, i);
  }

  function Columns(m: Matrix): nat {
    if m == [] then 0 else |m[0]|
  }

  /** The study refuses below its guardrail and otherwise measures every split; a matrix that passes it without
      blocks fails on an empty maximum or a division by zero, and one with a short row on a missing column. */
  method Cscv(m: Matrix, sRequired: int, minConfigs: int) returns (r: Outcome)
    ensures var n, s := |m|, Columns(m);
            if n < minConfigs || s < sRequired || s % 2 != 0 then r == Refused(n, s)
            else if s == 0 || !Shaped(m, s) then r == Failed
            else m != [] && r.Measured? && r.splits == |r.odds| > 0 && AllOdds(m, s, r.odds) && r.pbo == Pbo(r.odds)
  {
    var n, s := |m|, Columns(m);
    if n < minConfigs || s < sRequired || s % 2 != 0 { return Refused(n, s); }
    if s == 0 || !Shaped(m, s) { return Failed; }
    var odds := MeasureSplits(m, s);
    hide Count;
    r := Measured(|odds|, odds, Pbo(odds));
  }

  method MeasureSplits(m: Matrix, s: nat) returns (odds: seq<real>)
    requires Shaped(m, s) && m != [] && s >= 2 && s % 2 == 0
    ensures odds != [] && AllOdds(m, s, odds)
  {
    hide LambdaOdds, Combinations, Shaped, Inside;
    var splits := Combinations(0, s, s / 2);
    odds := [];
    for i := 0 to |splits|
      invariant |odds| == i
      invariant forall k :: 0 <= k < i ==> Inside(splits[k], s) && odds[k] == LambdaOdds(m, s, splits[k])
    {
      CombinationInside(s, s / 2, i);
      var o := SplitOdds(m, s, splits[i]);
      odds := odds + [o];
    }
    SomeSplit(s / 2);
    assert 2 * (s / 2) == s;
  }

  method SplitOdds(m: Matrix, s: nat, isBlocks: seq<nat>) returns (odds: real)
    requires Shaped(m, s) && Inside(isBlocks, s) && m != [] && s >= 2
    ensures odds == LambdaOdds(m, s, isBlocks)
  {
    var oosBlocks := Complement(isBlocks, s);
    ComplementInside(isBlocks, s);
    var isPerf, oosPerf := PerfOf(m, s, isBlocks, s / 2), PerfOf(m, s, oosBlocks, s / 2);
    var star := FirstMax(isPerf, Less);
    var rank := AvgRank(oosPerf, star);
    RankMeaning(oosPerf, star);
    odds := Odds(rank, |m|);
  }

  // ---------------------------------------------------------------- what the measure says

  /** A split counts against the study exactly when more configurations beat the in-sample best out of
      sample than it beats there. */
  lemma NegativeMeans(m: Matrix, s: nat, c: seq<nat>)
    requires Shaped(m, s) && Inside(c, s) && m != [] && s >= 2
    ensures Inside(Complement(c, s), s)
    ensures var oos, star := PerfOf(m, s, Complement(c, s), s / 2), Star(m, s, c);
            var worse, better := Count(oos, (x: real) => x < oos[star]), Count(oos, (x: real) => x > oos[star]);
            && (Negative(LambdaOdds(m, s, c)) <==> worse < better)
            && (Zero(LambdaOdds(m, s, c)) <==> worse == better)
  {
    ComplementInside(c, s);
    var oos, star := PerfOf(m, s, Complement(c, s), s / 2), Star(m, s, c);
    RankMeaning(oos, star);
    LambdaSign(StarRank(m, s, c), |m|);
  }

  /** The sum of the first `s` blocks of a row that are, or are not, among those of `c`. */
  function BlockSum(row: seq<real>, s: nat, c: seq<nat>, among: bool): real
    requires s <= |row|
  {
    if s == 0 then 0.0 else BlockSum(row, s - 1, c, among) + if (s - 1 in c) == among then row[s - 1] else 0.0
  }

  lemma {:induction false} BlockSumSame(row: seq<real>, s: nat, c: seq<nat>, d: seq<nat>, among: bool, other: bool)
    requires s <= |row| && forall j: nat :: j < s ==> ((j in c) == among <==> (j in d) == other)
    ensures BlockSum(row, s, c, among) == BlockSum(row, s, d, other)
  {
    if s > 0 {
      BlockSumSame(row, s - 1, c, d, among, other);
    }
  }

  lemma {:induction false} SumAtIs(row: seq<real>, s: nat, c: seq<nat>)
    requires s <= |row| && Choice(c, 0, s, |c|)
    ensures SumAt(row, c) == BlockSum(row, s, c, true)
  {
    if s > 0 {
      var n := |c|;
      if n > 0 && c[n - 1] == s - 1 {
        var d := c[..n - 1];
        FrontChoice(c, s);
        SumAtIs(row, s - 1, d);
        hide Choice;
        BlockSumSame(row, s - 1, d, c, true, true);
      } else {
        LowerChoice(c, s);
        SumAtIs(row, s - 1, c);
      }
    }
  }

  lemma FrontChoice(c: seq<nat>, s: nat)
    requires c != [] && Choice(c, 0, s, |c|) && c[|c| - 1] == s - 1
    ensures Choice(c[..|c| - 1], 0, s - 1, |c| - 1)
    ensures forall j: nat :: j < s - 1 ==> (j in c[..|c| - 1] <==> j in c)
  {
    assert c == c[..|c| - 1] + [s - 1];
  }

  lemma LowerChoice(c: seq<nat>, s: nat)
    requires s > 0 && Choice(c, 0, s, |c|) && (c == [] || c[|c| - 1] != s - 1)
    ensures Choice(c, 0, s - 1, |c|) && s - 1 !in c
  {
    forall i | 0 <= i < |c| ensures c[i] < s - 1 {
      assert i < |c| - 1 ==> c[i] < c[|c| - 1];
    }
  }

  /** What the two halves of a split are worth to one configuration: the blocks chosen, and all the others. */
  lemma HalvesAre(row: seq<real>, s: nat, c: seq<nat>)
    requires s <= |row| && Choice(c, 0, s, |c|)
    ensures Inside(Complement(c, s), s)
    ensures SumAt(row, c) == BlockSum(row, s, c, true)
    ensures SumAt(row, Complement(c, s)) == BlockSum(row, s, c, false)
    ensures SumAt(row, c) + SumAt(row, Complement(c, s)) == BlockSum(row, s, [], false)
  {
    hide SumAt;
    var d := Complement(c, s);
    ComplementMember(c, s);
    SumAtIs(row, s, c);
    SumAtIs(row, s, d);
    BlockSumSame(row, s, d, c, true, false);
    SidesAddUp(row, s, c);
  }

  lemma {:induction false} SidesAddUp(row: seq<real>, s: nat, c: seq<nat>)
    requires s <= |row|
    ensures BlockSum(row, s, c, true) + BlockSum(row, s, c, false) == BlockSum(row, s, [], false)
  {
    if s > 0 {
      SidesAddUp(row, s - 1, c);
    }
  }

  function Sums(m: Matrix, s: nat, c: seq<nat>, among: bool): (r: seq<real>)
    requires Shaped(m, s)
    ensures |r| == |m| && forall i :: 0 <= i < |m| ==> r[i] == BlockSum(m[i], s, c, among)
  {
    seq(|m|, i requires 0 <= i < |m| => BlockSum(m[i], s, c, among))
  }

  lemma ScaledIff(x: real, y: real, h: real)
    requires h > 0.0
    ensures x / h < y / h <==> x < y
  {
    var u, v := x / h, y / h;
    assert u * h == x && v * h == y;
    assert (v - u) * h == y - x;
    assert v - u > 0.0 ==> (v - u) * h > 0.0;
    assert v - u <= 0.0 ==> (v - u) * h <= 0.0;
  }

  lemma {:induction false} CountScaled(a: seq<real>, b: seq<real>, x: real, y: real, h: real)
    requires h > 0.0 && |a| == |b| && x == y / h && forall i :: 0 <= i < |a| ==> a[i] == b[i] / h
    ensures Count(a, (z: real) => z < x) == Count(b, (z: real) => z < y)
    ensures Count(a, (z: real) => z > x) == Count(b, (z: real) => z > y)
  {
    if a != [] {
      var n := |a| - 1;
      CountScaled(a[..n], b[..n], x, y, h);
      ScaledIff(b[n], y, h);
      ScaledIff(y, b[n], h);
    }
  }

  /** How many values are below, and how many above, the one at `i`. */
  function Worse(values: seq<real>, i: nat): nat
    requires i < |values|
  {
    Count(values, (x: real) => x < values[i])
  }

  function Better(values: seq<real>, i: nat): nat
    requires i < |values|
  {
    Count(values, (x: real) => x > values[i])
  }

  /** N + 1 and the lead of the worse over the better, against N + 1 and the lead of the better. */
  ghost predicate OddsBy(odds: real, n: nat, worse: nat, better: nat) {
    odds * (n + 1 - worse + better) as real == (n + 1 + worse - better) as real
  }

  ghost predicate HalfOdds(odds: real, rank: real, n: nat) {
    odds * (n as real + 1.0 - rank) == rank
  }

  /** One split, on the matrix itself: the first configuration whose sum over the chosen blocks none exceeds,
      held against the others by the sums over all the other blocks. */
  lemma SplitMeans(m: Matrix, s: nat, c: seq<nat>)
    requires Shaped(m, s) && m != [] && s >= 2 && Choice(c, 0, s, |c|)
    ensures Inside(c, s)
    ensures var ins, oos, star := Sums(m, s, c, true), Sums(m, s, c, false), Star(m, s, c);
            var worse, better := Worse(oos, star), Better(oos, star);
            && (forall i :: 0 <= i < |m| ==> ins[i] <= ins[star] && (i < star ==> ins[i] < ins[star]))
            && (Negative(LambdaOdds(m, s, c)) <==> worse < better)
            && (Zero(LambdaOdds(m, s, c)) <==> worse == better)
            && OddsBy(LambdaOdds(m, s, c), |m|, worse, better)
  {
    hide Star, Sums, Negative, Zero, PerfOf, LambdaOdds, StarRank, Worse, Better, OddsBy;
    ComplementInside(c, s);
    StarMeans(m, s, c);
    CountsAre(m, s, c);
    OddsOfRank(m, s, c);
  }

  lemma OddsOfRank(m: Matrix, s: nat, c: seq<nat>)
    requires Shaped(m, s) && Inside(c, s) && m != [] && s >= 2 && Inside(Complement(c, s), s)
    ensures var perf, star := PerfOf(m, s, Complement(c, s), s / 2), Star(m, s, c);
            var worse, better := Worse(perf, star), Better(perf, star);
            && (Negative(LambdaOdds(m, s, c)) <==> worse < better)
            && (Zero(LambdaOdds(m, s, c)) <==> worse == better)
            && OddsBy(LambdaOdds(m, s, c), |m|, worse, better)
  {
    var perf, star := PerfOf(m, s, Complement(c, s), s / 2), Star(m, s, c);
    hide Star, PerfOf, Worse, Better, AvgRank, Odds, OddsBy, Negative, Zero;
    RankOdds(perf, star);
  }

  /** The odds of a value by how many lie below it and above it. */
  lemma RankOdds(values: seq<real>, i: nat)
    requires i < |values|
    ensures AvgRank(values, i) < |values| as real + 1.0
    ensures var odds, n, worse, better := Odds(AvgRank(values, i), |values|), |values|, Worse(values, i), Better(values, i);
            && (Negative(odds) <==> worse < better) && (Zero(odds) <==> worse == better)
            && OddsBy(odds, n, worse, better)
  {
    RankMeaning(values, i);
    hide Odds, AvgRank, Count, OddsBy, HalfOdds;
    LambdaSign(AvgRank(values, i), |values|);
    OddsAre(AvgRank(values, i), |values|);
    Twice(Odds(AvgRank(values, i), |values|), AvgRank(values, i), |values|, Worse(values, i), Better(values, i));
  }

  lemma CountsAre(m: Matrix, s: nat, c: seq<nat>)
    requires Shaped(m, s) && m != [] && s >= 2 && Choice(c, 0, s, |c|) && Inside(c, s) && Inside(Complement(c, s), s)
    ensures var oos, perf, star := Sums(m, s, c, false), PerfOf(m, s, Complement(c, s), s / 2), Star(m, s, c);
            Worse(perf, star) == Worse(oos, star) && Better(perf, star) == Better(oos, star)
  {
    hide Star, BlockSum, SumAt, Count;
    var oos, perf, star := Sums(m, s, c, false), PerfOf(m, s, Complement(c, s), s / 2), Star(m, s, c);
    forall i | 0 <= i < |m| ensures perf[i] == oos[i] / (s / 2) as real {
      HalvesAre(m[i], s, c);
    }
    CountScaled(perf, oos, perf[star], oos[star], (s / 2) as real);
  }

  lemma Twice(odds: real, rank: real, n: nat, worse: nat, better: nat)
    requires HalfOdds(odds, rank, n) && 2.0 * rank == (n + 1 + worse - better) as real
    ensures OddsBy(odds, n, worse, better)
  {
    assert (n + 1 - worse + better) as real == 2.0 * (n as real + 1.0 - rank);
    assert odds * (2.0 * (n as real + 1.0 - rank)) == 2.0 * (odds * (n as real + 1.0 - rank));
  }

  lemma StarMeans(m: Matrix, s: nat, c: seq<nat>)
    requires Shaped(m, s) && m != [] && s >= 2 && Choice(c, 0, s, |c|) && Inside(c, s)
    ensures var ins, star := Sums(m, s, c, true), Star(m, s, c);
            forall i :: 0 <= i < |m| ==> ins[i] <= ins[star] && (i < star ==> ins[i] < ins[star])
  {
    hide BlockSum, SumAt, FirstMax;
    var ins, perf, h := Sums(m, s, c, true), PerfOf(m, s, c, s / 2), (s / 2) as real;
    FirstMaxIsFirst(perf, Less);
    var star := Star(m, s, c);
    HalvesAre(m[star], s, c);
    forall i | 0 <= i < |m| ensures ins[i] <= ins[star] && (i < star ==> ins[i] < ins[star]) {
      HalvesAre(m[i], s, c);
      ScaledIff(ins[i], ins[star], h);
      ScaledIff(ins[star], ins[i], h);
      assert !Less(perf[star], perf[i]) && (i < star ==> Less(perf[i], perf[star]));
    }
  }

  function Inverse(x: real): real {
    if x == 0.0 then 0.0 else 1.0 / x
  }

  /** Turning every split's odds round turns the measure round. */
  lemma PboBalances(odds: seq<real>)
    requires odds != [] && forall i :: 0 <= i < |odds| ==> odds[i] > 0.0
    ensures Pbo(odds) + Pbo(Map(Inverse, odds)) == 1.0
  {
    InverseCounts(odds);
    var n, u, z := |odds| as real, Count(odds, Negative) as real, Count(odds, Zero) as real;
    hide Count;
    Halves(n, u, z);
  }

  lemma Halves(n: real, u: real, z: real)
    requires n > 0.0
    ensures (u + 0.5 * z) / n + (n - u - z + 0.5 * z) / n == 1.0
  {
    var a, b := (u + 0.5 * z) / n, (n - u - z + 0.5 * z) / n;
    assert a * n == u + 0.5 * z && b * n == n - u - z + 0.5 * z;
    assert (a + b - 1.0) * n == 0.0;
  }

  lemma {:induction false} InverseCounts(odds: seq<real>)
    requires forall i :: 0 <= i < |odds| ==> odds[i] > 0.0
    ensures var back := Map(Inverse, odds);
            Count(back, Zero) == Count(odds, Zero) && Count(back, Negative) == |odds| - Count(odds, Negative) - Count(odds, Zero)
  {
    if odds != [] {
      var n := |odds| - 1;
      InverseCounts(odds[..n]);
      assert Map(Inverse, odds)[..n] == Map(Inverse, odds[..n]);
      InverseSign(odds[n]);
    }
  }

  lemma InverseSign(x: real)
    requires x > 0.0
    ensures Inverse(x) < 1.0 <==> x > 1.0
    ensures Inverse(x) == 1.0 <==> x == 1.0
  {
    Ratio(1.0, x);
  }

  lemma {:induction false} NegativeOrZero(odds: seq<real>)
    ensures Count(odds, Negative) + Count(odds, Zero) <= |odds|
  {
    if odds != [] {
      NegativeOrZero(odds[..|odds| - 1]);
    }
  }

  lemma {:induction false} CountAll<T>(cs: seq<T>, p: T -> bool, all: bool)
    requires forall i :: 0 <= i < |cs| ==> p(cs[i]) == all
    ensures Count(cs, p) == if all then |cs| else 0
  {
    if cs != [] {
      CountAll(cs[..|cs| - 1], p, all);
    }
  }

  lemma Fraction(a: real, n: real)
    requires n > 0.0 && 0.0 <= a <= n
    ensures 0.0 <= a / n <= 1.0
  {
  }

  lemma PboInUnit(odds: seq<real>)
    requires odds != []
    ensures 0.0 <= Pbo(odds) <= 1.0
  {
    NegativeOrZero(odds);
    var a, n := Count(odds, Negative) as real + 0.5 * Count(odds, Zero) as real, |odds| as real;
    Fraction(a, n);
  }

  /** Identical configurations: every rank is the middle one and the measure is one half. */
  lemma IdenticalIsHalf(m: Matrix, s: nat, odds: seq<real>)
    requires Shaped(m, s) && m != [] && s >= 2 && odds != [] && AllOdds(m, s, odds)
    requires forall i, j :: 0 <= i < j < |m| ==> m[i] == m[j]
    ensures Pbo(odds) == 0.5
  {
    hide Combinations, LambdaOdds;
    var cs := Combinations(0, s, s / 2);
    forall i | 0 <= i < |odds| ensures Zero(odds[i]) {
      IdenticalTie(m, s, cs[i]);
    }
    AllZero(odds);
  }

  lemma AllZero(odds: seq<real>)
    requires odds != [] && forall i :: 0 <= i < |odds| ==> Zero(odds[i])
    ensures Pbo(odds) == 0.5
  {
    CountAll(odds, Negative, false);
    CountAll(odds, Zero, true);
    hide Count;
    Halve(|odds| as real);
  }

  lemma NoneOverfit(odds: seq<real>)
    requires odds != [] && forall i :: 0 <= i < |odds| ==> !Zero(odds[i]) && !Negative(odds[i])
    ensures Pbo(odds) == 0.0
  {
    CountAll(odds, Negative, false);
    CountAll(odds, Zero, false);
  }

  lemma Halve(n: real)
    requires n > 0.0
    ensures (0.0 + 0.5 * n) / n == 0.5
  {
  }

  lemma IdenticalTie(m: Matrix, s: nat, c: seq<nat>)
    requires Shaped(m, s) && Inside(c, s) && m != [] && s >= 2
    requires forall i, j :: 0 <= i < j < |m| ==> m[i] == m[j]
    ensures Zero(LambdaOdds(m, s, c))
  {
    NegativeMeans(m, s, c);
    var oos, star := PerfOf(m, s, Complement(c, s), s / 2), Star(m, s, c);
    forall i | 0 <= i < |oos| ensures oos[i] == oos[star] {
      assert m[i] == m[star];
    }
    CountAll(oos, (x: real) => x < oos[star], false);
    CountAll(oos, (x: real) => x > oos[star], false);
  }

  // ---------------------------------------------------------------- one configuration best everywhere

  ghost predicate BestEverywhere(m: Matrix, s: nat, b: nat)
    requires Shaped(m, s)
  {
    b < |m| && forall i, j :: 0 <= i < |m| && i != b && 0 <= j < s ==> m[i][j] < m[b][j]
  }

  lemma {:induction false} SumLess(low: seq<real>, high: seq<real>, c: seq<nat>, s: nat)
    requires Inside(c, s) && s <= |low| && s <= |high| && forall j :: 0 <= j < s ==> low[j] < high[j]
    ensures c != [] ==> SumAt(low, c) < SumAt(high, c)
    ensures SumAt(low, c) <= SumAt(high, c)
  {
    if c != [] {
      SumLess(low, high, c[..|c| - 1], s);
    }
  }

  lemma Scaled(a: real, b: real, d: real)
    requires a < b && d > 0.0
    ensures a / d < b / d
  {
  }

  lemma BestPerf(m: Matrix, s: nat, b: nat, c: seq<nat>, half: nat, i: nat)
    requires Shaped(m, s) && Inside(c, s) && c != [] && half >= 1 && BestEverywhere(m, s, b) && i < |m| && i != b
    ensures PerfOf(m, s, c, half)[i] < PerfOf(m, s, c, half)[b]
  {
    SumLess(m[i], m[b], c, s);
    Scaled(SumAt(m[i], c), SumAt(m[b], c), half as real);
  }

  lemma {:induction false} CountAllBut(values: seq<real>, p: real -> bool, b: nat)
    requires b < |values| && !p(values[b]) && forall i :: 0 <= i < |values| && i != b ==> p(values[i])
    ensures Count(values, p) == |values| - 1
  {
    var n := |values| - 1;
    if b == n {
      CountAll(values[..n], p, true);
    } else {
      CountAllBut(values[..n], p, b);
    }
  }

  /** A configuration strictly best in every block is chosen in every split and stays best out of sample. */
  lemma BestIsChosen(m: Matrix, s: nat, b: nat, c: seq<nat>)
    requires Shaped(m, s) && s >= 2 && Inside(c, s) && c != [] && Complement(c, s) != [] && BestEverywhere(m, s, b)
    ensures Star(m, s, c) == b
    ensures |m| >= 2 ==> !Negative(LambdaOdds(m, s, c)) && !Zero(LambdaOdds(m, s, c))
  {
    var half, perf, star := s / 2, PerfOf(m, s, c, s / 2), Star(m, s, c);
    FirstMaxIsFirst(perf, Less);
    assert !Less(perf[star], perf[b]);
    forall i | 0 <= i < |m| && i != b ensures perf[i] < perf[b] {
      BestPerf(m, s, b, c, half, i);
    }
    NegativeMeans(m, s, c);
    var oos := PerfOf(m, s, Complement(c, s), half);
    forall i | 0 <= i < |oos| && i != b ensures oos[i] < oos[b] {
      BestPerf(m, s, b, Complement(c, s), half, i);
    }
    CountAllBut(oos, (x: real) => x < oos[b], b);
    CountAll(oos, (x: real) => x > oos[b], false);
  }

  /** Then the measure is zero, unless that configuration is the only one. */
  lemma BestEverywhereIsZero(m: Matrix, s: nat, b: nat, odds: seq<real>)
    requires Shaped(m, s) && m != [] && s >= 2 && s % 2 == 0 && odds != [] && AllOdds(m, s, odds)
    requires BestEverywhere(m, s, b)
    ensures Pbo(odds) == (if |m| >= 2 then 0.0 else 0.5)
  {
    hide Combinations, LambdaOdds, Pbo, Star, Complement, BestEverywhere;
    if |m| == 1 {
      IdenticalIsHalf(m, s, odds);
    } else {
      var cs := Combinations(0, s, s / 2);
      forall i | 0 <= i < |odds| ensures !Zero(odds[i]) && !Negative(odds[i]) {
        CombinationsSound(0, s, s / 2, i);
        ComplementSize(cs[i], s);
        BestIsChosen(m, s, b, cs[i]);
      }
      NoneOverfit(odds);
    }
  }
}

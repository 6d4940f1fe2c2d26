/**
 * The developing volume profile (orderflow_engine/levels/volume_profile.py): volume by price bin, the
 * point of control, and the value area grown from it one bin at a time toward the heavier neighbour.
 */
module VolumeProfile {
  import opened Seqs

  // ---------------------------------------------------------------- the value area

  /** Volume of bins i, i + 1, .., j - 1. */
  function Sum(v: seq<int>, i: int, j: int): int
    requires 0 <= i <= |v| && j <= |v|
    decreases j - i
  {
    if i >= j then 0 else Sum(v, i, j - 1) + v[j - 1]
  }

  lemma {:induction false} SumFirst(v: seq<int>, i: int, j: int)
    requires 0 <= i < j <= |v|
    ensures Sum(v, i, j) == v[i] + Sum(v, i + 1, j)
    decreases j - i
  {
    if i + 1 < j {
      SumFirst(v, i, j - 1);
    }
  }

  lemma {:induction false} SumNonNegative(v: seq<int>, i: int, j: int)
    requires 0 <= i <= |v| && j <= |v| && forall k :: 0 <= k < |v| ==> v[k] >= 0
    ensures Sum(v, i, j) >= 0
    decreases j - i
  {
    if i < j {
      SumNonNegative(v, i, j - 1);
    }
  }

  lemma {:induction false} SumInside(v: seq<int>, lo: int, hi: int, a: int, b: int)
    requires 0 <= lo <= a <= b <= hi <= |v| && forall k :: 0 <= k < |v| ==> v[k] >= 0
    ensures Sum(v, a, b) <= Sum(v, lo, hi)
    decreases hi - lo
  {
    if lo < a {
      SumFirst(v, lo, hi);
      SumInside(v, lo + 1, hi, a, b);
    } else if b < hi {
      SumInside(v, lo, hi - 1, a, b);
    }
  }

  /** One step of the expansion: toward the heavier neighbour, upward on ties. */
  function Grow(v: seq<int>, lo: nat, hi: nat): (r: (nat, nat))
    requires lo <= hi < |v| && (lo > 0 || hi < |v| - 1)
    ensures r == (lo, hi + 1) || (lo > 0 && r == (lo - 1, hi))
    ensures r.0 <= r.1 < |v|
  {
    if hi < |v| - 1 && (lo == 0 || v[hi + 1] >= v[lo - 1]) then (lo, hi + 1) else (lo - 1, hi)
  }

  /** The band [lo, hi] the expansion stops at. */
  function Expand(v: seq<int>, lo: nat, hi: nat, target: real): (r: (nat, nat))
    requires lo <= hi < |v|
    ensures r.0 <= lo && hi <= r.1 < |v|
    decreases lo + |v| - hi
  {
    if Sum(v, lo, hi + 1) as real < target && (lo > 0 || hi < |v| - 1) then
      var g := Grow(v, lo, hi);
      Expand(v, g.0, g.1, target)
    else (lo, hi)
  }

  /** The expansion reaches the target unless it runs out of bins, and not a bin later: without the end
      it added last the band falls short. */
  lemma {:induction false} ExpandReaches(v: seq<int>, lo: nat, hi: nat, target: real)
    requires lo <= hi < |v|
    ensures var r := Expand(v, lo, hi, target);
            && (Sum(v, r.0, r.1 + 1) as real >= target || (r.0 == 0 && r.1 == |v| - 1))
            && (r != (lo, hi) ==>
                  || (Sum(v, r.0 + 1, r.1 + 1) as real) < target
                  || (Sum(v, r.0, r.1) as real) < target)
    decreases lo + |v| - hi
  {
    if Sum(v, lo, hi + 1) as real < target && (lo > 0 || hi < |v| - 1) {
      var g := Grow(v, lo, hi);
      ExpandReaches(v, g.0, g.1, target);
    }
  }

  /** Volumes do not increase moving away from bin `p` on either side. */
  ghost predicate Unimodal(v: seq<int>, p: nat)
    requires p < |v|
  {
    && (forall i, j :: 0 <= i <= j <= p ==> v[i] <= v[j])
    && (forall i, j :: p <= i <= j < |v| ==> v[j] <= v[i])
  }

  /** No bin outside the band is heavier than one inside. */
  ghost predicate Dominates(v: seq<int>, lo: nat, hi: nat)
    requires lo <= hi < |v|
  {
    forall i, j :: lo <= i <= hi && 0 <= j < |v| && (j < lo || hi < j) ==> v[j] <= v[i]
  }

  lemma GrowDominates(v: seq<int>, p: nat, lo: nat, hi: nat)
    requires lo <= p <= hi < |v| && Unimodal(v, p) && Dominates(v, lo, hi) && (lo > 0 || hi < |v| - 1)
    requires forall k :: 0 <= k < |v| ==> v[k] >= 0
    ensures var g := Grow(v, lo, hi); Dominates(v, g.0, g.1)
  {
    var g := Grow(v, lo, hi);
    var added := if g.1 == hi + 1 then hi + 1 else lo - 1;
    forall j | 0 <= j < |v| && (j < g.0 || g.1 < j) ensures v[j] <= v[added] {
      if j < lo {
        assert v[j] <= v[lo - 1];
      } else {
        assert v[j] <= v[hi + 1];
      }
    }
  }

  /** A band that dominates holds at least as much as any contiguous band of no more bins. */
  lemma {:induction false} BestBand(v: seq<int>, p: nat, lo: nat, hi: nat, a: nat, b: nat)
    requires lo <= p <= hi < |v| && Unimodal(v, p) && Dominates(v, lo, hi)
    requires a <= b < |v| && b - a <= hi - lo
    requires forall k :: 0 <= k < |v| ==> v[k] >= 0
    ensures Sum(v, a, b + 1) <= Sum(v, lo, hi + 1)
    decreases if a < lo then lo - a else if b > hi then b - hi else 0
  {
    if a < lo {
      SumFirst(v, a, b + 1);
      assert v[a] <= v[b + 1];
      BestBand(v, p, lo, hi, a + 1, b + 1);
    } else if b > hi {
      SumFirst(v, a - 1, b);
      assert v[b] <= v[a - 1];
      BestBand(v, p, lo, hi, a - 1, b - 1);
    } else {
      SumInside(v, lo, hi + 1, a, b + 1);
    }
  }

  ghost predicate Short(v: seq<int>, a: int, b: int, target: real)
    requires 0 <= a <= b < |v|
  {
    Sum(v, a, b + 1) as real < target
  }

  /** No contiguous band of at most `n` bins reaches the target. */
  ghost predicate NoSmallerBand(v: seq<int>, n: int, target: real) {
    forall a, b :: 0 <= a <= b < |v| && b - a < n ==> Short(v, a, b, target)
  }

  lemma ExpandGrows(v: seq<int>, lo: nat, hi: nat, target: real)
    requires lo <= hi < |v| && (Sum(v, lo, hi + 1) as real) < target && (lo > 0 || hi < |v| - 1)
    ensures var g := Grow(v, lo, hi); Expand(v, lo, hi, target) == Expand(v, g.0, g.1, target)
  {
  }

  lemma ExpandStops(v: seq<int>, lo: nat, hi: nat, target: real)
    requires lo <= hi < |v| && ((Sum(v, lo, hi + 1) as real) >= target || (lo == 0 && hi == |v| - 1))
    ensures Expand(v, lo, hi, target) == (lo, hi)
  {
  }

  /** In general the value area is not the smallest band around the point of control: greedy expansion
      takes four bins here where three reach the target. */
  lemma NotSmallestInGeneral()
    ensures var v := [9, 4, 10, 5, 0];
            var target := 22.4;
            && (forall i :: 0 <= i < |v| ==> v[i] <= v[2])
            && Expand(v, 2, 2, target) == (0, 3)
            && (Sum(v, 0, 3) as real) >= target
  {
    var v := [9, 4, 10, 5, 0];
    assert Sum(v, 2, 3) == 10 && Sum(v, 2, 4) == 15;
    assert Sum(v, 1, 4) == 19 && Sum(v, 0, 4) == 28 && Sum(v, 0, 3) == 23;
    assert Grow(v, 2, 2) == (2, 3) && Grow(v, 2, 3) == (1, 3) && Grow(v, 1, 3) == (0, 3);
  }

  // ---------------------------------------------------------------- when it is the smallest

  /** The band after `n` steps of the expansion, wherever it will stop. */
  function Band(v: seq<int>, poc: nat, n: nat): (r: (nat, nat))
    requires poc < |v| && n < |v|
    ensures r.0 <= poc <= r.1 < |v| && r.1 - r.0 == n
  {
    if n == 0 then (poc, poc)
    else
      var before := Band(v, poc, n - 1);
      Grow(v, before.0, before.1)
  }

  function BandSum(v: seq<int>, poc: nat, n: nat): int
    requires poc < |v| && n < |v|
  {
    Sum(v, Band(v, poc, n).0, Band(v, poc, n).1 + 1)
  }

  /** Which bands the value area is compared with: those around the point of control, or all of them. */
  datatype Scope = Around(poc: nat) | Anywhere

  predicate Among(scope: Scope, a: int, b: int) {
    scope.Around? ==> a <= scope.poc <= b
  }

  /** No band in scope with as many bins is heavier. */
  ghost predicate Heaviest(v: seq<int>, poc: nat, n: nat, scope: Scope)
    requires poc < |v| && n < |v|
  {
    forall a, b :: 0 <= a <= b < |v| && b - a == n && Among(scope, a, b) ==> AtMostBand(v, poc, n, a, b)
  }

  ghost predicate AtMostBand(v: seq<int>, poc: nat, n: nat, a: int, b: int)
    requires poc < |v| && n < |v| && 0 <= a <= b < |v|
  {
    Sum(v, a, b + 1) <= BandSum(v, poc, n)
  }

  /** The documented claim at one target: no band in scope with fewer bins reaches it. */
  ghost predicate SmallestAt(v: seq<int>, poc: nat, target: real, scope: Scope)
    requires poc < |v|
  {
    var r := Expand(v, poc, poc, target);
    forall a, b :: 0 <= a <= b < |v| && b - a < r.1 - r.0 && Among(scope, a, b) ==> Short(v, a, b, target)
  }

  ghost predicate BandShort(v: seq<int>, poc: nat, n: nat, target: real)
    requires poc < |v| && n < |v|
  {
    BandSum(v, poc, n) as real < target
  }

  /** The expansion goes on from the band after `n` steps as long as bands fall short and can grow. */
  lemma BandStep(v: seq<int>, poc: nat, n: nat, target: real)
    requires poc < |v| && n < |v|
    ensures var band := Band(v, poc, n);
            if BandShort(v, poc, n, target) && n < |v| - 1
            then Expand(v, band.0, band.1, target) == Expand(v, Band(v, poc, n + 1).0, Band(v, poc, n + 1).1, target)
            else Expand(v, band.0, band.1, target) == band
  {
    hide Sum;
    var band := Band(v, poc, n);
    if BandShort(v, poc, n, target) && n < |v| - 1 {
      assert Band(v, poc, n + 1) == Grow(v, band.0, band.1);
      hide Grow, Band;
      ExpandGrows(v, band.0, band.1, target);
    } else {
      hide Grow, Band;
      ExpandStops(v, band.0, band.1, target);
    }
  }

  lemma {:induction false} ExpandIsBand(v: seq<int>, poc: nat, n: nat, target: real) returns (k: nat)
    requires poc < |v| && n < |v|
    ensures n <= k < |v| && Expand(v, Band(v, poc, n).0, Band(v, poc, n).1, target) == Band(v, poc, k)
    ensures forall j :: n <= j < k ==> BandShort(v, poc, j, target)
    ensures k == |v| - 1 || !BandShort(v, poc, k, target)
    decreases |v| - n
  {
    hide Expand, Band, BandShort;
    BandStep(v, poc, n, target);
    if BandShort(v, poc, n, target) && n < |v| - 1 {
      k := ExpandIsBand(v, poc, n + 1, target);
    } else {
      k := n;
    }
  }

  lemma {:induction false} BandGrows(v: seq<int>, poc: nat, i: nat, n: nat)
    requires poc < |v| && i <= n < |v| && forall k :: 0 <= k < |v| ==> v[k] >= 0
    ensures BandSum(v, poc, i) <= BandSum(v, poc, n)
    decreases n - i
  {
    if i < n {
      BandGrows(v, poc, i, n - 1);
      var before, band := Band(v, poc, n - 1), Band(v, poc, n);
      SumInside(v, band.0, band.1 + 1, before.0, before.1 + 1);
    }
  }

  lemma HeaviestIsSmallest(v: seq<int>, poc: nat, target: real, scope: Scope)
    requires poc < |v| && forall n :: 0 <= n < |v| ==> Heaviest(v, poc, n, scope)
    ensures SmallestAt(v, poc, target, scope)
  {
    var k := ExpandIsBand(v, poc, 0, target);
    forall a, b | 0 <= a <= b < |v| && b - a < k && Among(scope, a, b) ensures Short(v, a, b, target) {
      assert Heaviest(v, poc, b - a, scope);
      assert AtMostBand(v, poc, b - a, a, b);
      assert BandShort(v, poc, b - a, target);
    }
  }

  lemma WholeBand(v: seq<int>, poc: nat, n: nat, a: nat, b: nat)
    requires poc < |v| && n < |v| && a <= b < |v| && b - a == n
    ensures n == |v| - 1 ==> AtMostBand(v, poc, n, a, b)
  {
    if n == |v| - 1 {
      assert Band(v, poc, n) == (a, b);
    }
  }

  lemma HeavierBandWins(v: seq<int>, poc: nat, n: nat, a: nat, b: nat, scope: Scope)
    requires poc < |v| && n < |v| && a <= b < |v| && b - a == n && Among(scope, a, b) && !AtMostBand(v, poc, n, a, b)
    requires forall k :: 0 <= k < |v| ==> v[k] >= 0
    ensures !SmallestAt(v, poc, Sum(v, a, b + 1) as real, scope)
  {
    var target := Sum(v, a, b + 1) as real;
    var k := ExpandIsBand(v, poc, 0, target);
    hide Expand, Sum, Band;
    BandGrows(v, poc, if k <= n then k else n, n);
    WholeBand(v, poc, n, a, b);
    assert n < k;
    assert !Short(v, a, b, target);
  }

  /** The value area is the smallest band around the point of control (or of all bands), whatever the target,
      if and only if at every size the band grown so far is the heaviest of them. */
  lemma SmallestIff(v: seq<int>, poc: nat, scope: Scope)
    requires poc < |v| && forall k :: 0 <= k < |v| ==> v[k] >= 0
    ensures (forall target :: SmallestAt(v, poc, target, scope)) <==> (forall n :: 0 <= n < |v| ==> Heaviest(v, poc, n, scope))
  {
    if forall n :: 0 <= n < |v| ==> Heaviest(v, poc, n, scope) {
      forall target ensures SmallestAt(v, poc, target, scope) {
        HeaviestIsSmallest(v, poc, target, scope);
      }
    } else {
      var n :| 0 <= n < |v| && !Heaviest(v, poc, n, scope);
      var a, b :| 0 <= a <= b < |v| && b - a == n && Among(scope, a, b) && !AtMostBand(v, poc, n, a, b);
      HeavierBandWins(v, poc, n, a, b, scope);
    }
  }

  /** How much lies `d` bins from the point of control, above it or below it. */
  function Off(v: seq<int>, poc: nat, d: nat, up: bool): int
    requires d <= poc && poc + d < |v|
  {
    if up then v[poc + d] else v[poc - d]
  }

  /** The profile falls away from the point of control alike on both sides. */
  ghost predicate Symmetric(v: seq<int>, poc: nat)
    requires |v| == 2 * poc + 1
  {
    && (forall d: nat :: d <= poc ==> Off(v, poc, d, true) == Off(v, poc, d, false))
    && (forall d: nat, e: nat :: d < e <= poc ==> Off(v, poc, e, true) < Off(v, poc, d, true))
  }

  /** Over such a profile every second step is a tie, and a tie goes up. */
  lemma {:induction false} TiesGoUp(v: seq<int>, poc: nat, k: nat)
    requires |v| == 2 * poc + 1 && Symmetric(v, poc) && k <= poc
    ensures Band(v, poc, 2 * k) == (poc - k, poc + k)
    ensures k < poc ==> Band(v, poc, 2 * k + 1) == (poc - k, poc + k + 1)
  {
    hide *;
    if k > 0 {
      TiesGoUp(v, poc, k - 1);
      BandNext(v, poc, 2 * k - 1);
      LeansDown(v, poc, k);
    } else {
      BandStart(v, poc);
    }
    if k < poc {
      BandNext(v, poc, 2 * k);
      LeansUp(v, poc, k);
    }
  }

  lemma BandStart(v: seq<int>, poc: nat)
    requires poc < |v|
    ensures Band(v, poc, 0) == (poc, poc)
  {
  }

  lemma BandNext(v: seq<int>, poc: nat, n: nat)
    requires poc < |v| && n + 1 < |v|
    ensures Band(v, poc, n + 1) == Grow(v, Band(v, poc, n).0, Band(v, poc, n).1)
  {
  }

  lemma LeansUp(v: seq<int>, poc: nat, k: nat)
    requires |v| == 2 * poc + 1 && Symmetric(v, poc) && k < poc
    ensures Grow(v, poc - k, poc + k) == (poc - k, poc + k + 1)
  {
    assert Off(v, poc, k + 1, true) == Off(v, poc, k + 1, false);
  }

  lemma LeansDown(v: seq<int>, poc: nat, k: nat)
    requires |v| == 2 * poc + 1 && Symmetric(v, poc) && 0 < k <= poc
    ensures Grow(v, poc - (k - 1), poc + k) == (poc - k, poc + k)
  {
    assert Off(v, poc, k, true) == Off(v, poc, k, false);
    if k < poc {
      assert Off(v, poc, k + 1, true) < Off(v, poc, k, true);
    }
  }

  /** As it is, of all bands, over a profile that falls away from the point of control. */
  lemma {:induction false} UnimodalIsHeaviest(v: seq<int>, poc: nat, n: nat)
    requires poc < |v| && n < |v| && Unimodal(v, poc) && forall k :: 0 <= k < |v| ==> v[k] >= 0
    ensures Dominates(v, Band(v, poc, n).0, Band(v, poc, n).1) && Heaviest(v, poc, n, Anywhere)
  {
    hide Sum, Unimodal, Dominates;
    if n > 0 {
      UnimodalIsHeaviest(v, poc, n - 1);
      GrowDominates(v, poc, Band(v, poc, n - 1).0, Band(v, poc, n - 1).1);
    } else {
      OneDominates(v, poc);
    }
    var band := Band(v, poc, n);
    forall a, b | 0 <= a <= b < |v| && b - a == n ensures AtMostBand(v, poc, n, a, b) {
      BestBand(v, poc, band.0, band.1, a, b);
    }
  }

  /** Over such a profile no contiguous band of fewer bins, around the point of control or anywhere else,
      reaches the target. */
  lemma SmallestBand(v: seq<int>, poc: nat, target: real)
    requires poc < |v| && Unimodal(v, poc) && forall i :: 0 <= i < |v| ==> v[i] >= 0
    ensures var r := Expand(v, poc, poc, target); NoSmallerBand(v, r.1 - r.0, target)
  {
    hide Unimodal, Heaviest, Dominates, Expand;
    forall n | 0 <= n < |v| ensures Heaviest(v, poc, n, Anywhere) {
      UnimodalIsHeaviest(v, poc, n);
    }
    HeaviestIsSmallest(v, poc, target, Anywhere);
  }

  lemma OneDominates(v: seq<int>, poc: nat)
    requires poc < |v| && Unimodal(v, poc)
    ensures Dominates(v, poc, poc)
  {
  }

  // ---------------------------------------------------------------- the program

  method ValueArea(v: seq<int>, poc: nat, target: real) returns (lo: nat, hi: nat)
    requires poc < |v| && forall i :: 0 <= i < |v| ==> v[i] >= 0
    ensures (lo, hi) == Expand(v, poc, poc, target)
    ensures lo <= poc <= hi < |v|
    ensures target <= Sum(v, 0, |v|) as real ==> Sum(v, lo, hi + 1) as real >= target
    ensures Unimodal(v, poc) ==> NoSmallerBand(v, hi - lo, target)
  {
    hide Expand, Unimodal;
    lo, hi := poc, poc;
    var acc := v[poc];
    while (acc as real) < target && (lo > 0 || hi < |v| - 1)
      invariant lo <= poc <= hi < |v| && acc == Sum(v, lo, hi + 1)
      invariant Expand(v, lo, hi, target) == Expand(v, poc, poc, target)
      decreases lo + |v| - hi
    {
      var up := if hi < |v| - 1 then v[hi + 1] else -1;
      var dn := if lo > 0 then v[lo - 1] else -1;
      ExpandGrows(v, lo, hi, target);
      if up >= dn {
        hi := hi + 1;
        acc := acc + v[hi];
      } else {
        lo := lo - 1;
        SumFirst(v, lo, hi + 1);
        acc := acc + v[lo];
      }
    }
    ExpandStops(v, lo, hi, target);
    ExpandReaches(v, poc, poc, target);
    if Unimodal(v, poc) {
      SmallestBand(v, poc, target);
    }
  }

  /** The heaviest bin, the lowest-priced one on ties. */
  method PointOfControl(v: seq<int>) returns (poc: nat)
    requires v != []
    ensures poc < |v| && forall i :: 0 <= i < |v| ==> v[i] <= v[poc] && (i < poc ==> v[i] < v[poc])
  {
    poc := 0;
    for i := 1 to |v|
      invariant poc < i && forall j :: 0 <= j < i ==> v[j] <= v[poc] && (j < poc ==> v[j] < v[poc])
    {
      if v[i] > v[poc] {
        poc := i;
      }
    }
  }

  // ---------------------------------------------------------------- bins

  /** A dictionary from a bin's lower edge to its volume, in insertion order. */
  type Bins = seq<(real, int)>

  function Edge(n: int, size: real): real {
    n as real * size
  }

  /** The lower edge of the price's bin. */
  function BinOf(price: real, size: real): real
    requires size > 0.0
  {
    Edge((price / size).Floor, size)
  }

  /** A price lies in the bin it is put into. */
  lemma BinHolds(price: real, size: real)
    requires size > 0.0
    ensures BinOf(price, size) <= price < BinOf(price, size) + size
  {
    hide Edge;
    var n := (price / size).Floor;
    var d := price / size - n as real;
    EdgePlus(n, d, price, size);
  }

  /** Bins are cut at the multiples of the size: two prices share a bin if and only if no multiple separates
      them, and every bin begins at one. */
  lemma SameBinIff(p: real, q: real, size: real)
    requires size > 0.0
    ensures exists n: int :: BinOf(p, size) == Edge(n, size)
    ensures BinOf(p, size) == BinOf(q, size) <==> forall n: int :: Edge(n, size) <= p <==> Edge(n, size) <= q
  {
    var a, b := (p / size).Floor, (q / size).Floor;
    EdgeOrder(a, b, size);
    forall n: int ensures (Edge(n, size) <= p <==> n <= a) && (Edge(n, size) <= q <==> n <= b) {
      EdgeBelow(n, p, size);
      EdgeBelow(n, q, size);
    }
    hide Edge;
    assert Edge(a, size) <= p && Edge(b, size) <= q;
  }

  lemma EdgeBelow(n: int, p: real, size: real)
    requires size > 0.0
    ensures Edge(n, size) <= p <==> n <= (p / size).Floor
  {
    var d := p / size - n as real;
    assert p == (p / size) * size;
    assert p - Edge(n, size) == d * size;
    assert d >= 0.0 ==> d * size >= 0.0;
    assert d < 0.0 ==> d * size < 0.0;
  }

  lemma EdgeOrder(a: int, b: int, size: real)
    requires size > 0.0
    ensures Edge(a, size) == Edge(b, size) <==> a == b
  {
    assert Edge(a, size) - Edge(b, size) == (a - b) as real * size;
  }

  lemma EdgePlus(n: int, d: real, price: real, size: real)
    requires size > 0.0 && 0.0 <= d < 1.0 && n as real + d == price / size
    ensures Edge(n, size) <= price < Edge(n, size) + size
  {
    var within, left := d * size, (1.0 - d) * size;
    assert within >= 0.0 && left > 0.0;
    assert left == size - within;
    assert price == (n as real + d) * size == Edge(n, size) + within;
  }

  function AddTo(bins: Bins, b: real, n: int): Bins {
    if bins == [] then [(b, n)]
    else if bins[0].0 == b then [(b, bins[0].1 + n)] + bins[1..]
    else [bins[0]] + AddTo(bins[1..], b, n)
  }

  function Total(bins: Bins): int {
    if bins == [] then 0 else bins[0].1 + Total(bins[1..])
  }

  function VolumeIn(bins: Bins, b: real): int {
    if bins == [] then 0 else (if bins[0].0 == b then bins[0].1 else 0) + VolumeIn(bins[1..], b)
  }

  ghost predicate DistinctBins(bins: Bins) {
    forall i, j :: 0 <= i < j < |bins| ==> bins[i].0 != bins[j].0
  }

  lemma {:induction false} AddToConserves(bins: Bins, b: real, n: int, c: real)
    ensures Total(AddTo(bins, b, n)) == Total(bins) + n
    ensures VolumeIn(AddTo(bins, b, n), c) == VolumeIn(bins, c) + if c == b then n else 0
  {
    if bins != [] {
      if bins[0].0 == b {
        assert AddTo(bins, b, n)[1..] == bins[1..];
      } else {
        AddToConserves(bins[1..], b, n, c);
        assert AddTo(bins, b, n)[1..] == AddTo(bins[1..], b, n);
      }
    }
  }

  lemma {:induction false} AddToKeys(bins: Bins, b: real, n: int)
    ensures forall i :: 0 <= i < |AddTo(bins, b, n)| ==>
              AddTo(bins, b, n)[i].0 == b || (i < |bins| && AddTo(bins, b, n)[i] == bins[i])
    ensures |bins| <= |AddTo(bins, b, n)|
    ensures forall i :: 0 <= i < |bins| ==> AddTo(bins, b, n)[i].0 == bins[i].0
    ensures DistinctBins(bins) ==> DistinctBins(AddTo(bins, b, n))
  {
    if bins != [] && bins[0].0 != b {
      AddToKeys(bins[1..], b, n);
      var t := AddTo(bins[1..], b, n);
      assert AddTo(bins, b, n) == [bins[0]] + t;
      if DistinctBins(bins) {
        assert forall i :: 0 <= i < |t| ==> t[i].0 != bins[0].0 by {
          forall i | 0 <= i < |t| ensures t[i].0 != bins[0].0 {
            assert t[i].0 == b || bins[1..][i] == bins[i + 1];
          }
        }
      }
    }
  }

  datatype Trade = Trade(price: real, size: int)

  function Traded(trades: seq<Trade>): int {
    if trades == [] then 0 else Traded(trades[..|trades| - 1]) + trades[|trades| - 1].size
  }

  function TradedIn(trades: seq<Trade>, size: real, b: real): int
    requires size > 0.0
  {
    if trades == [] then 0
    else
      var t := trades[|trades| - 1];
      TradedIn(trades[..|trades| - 1], size, b) + if BinOf(t.price, size) == b then t.size else 0
  }

  predicate PriceAtMost(a: (real, int), b: (real, int)) {
    a.0 <= b.0
  }

  function Volume(e: (real, int)): int {
    e.1
  }

  /** The bins by ascending price. */
  function Ladder(bins: Bins): (r: Bins)
    ensures multiset(r) == multiset(bins) && |r| == |bins|
  {
    Sort(bins, PriceAtMost)
  }

  lemma {:induction false} TotalConcat(a: Bins, b: Bins)
    ensures Total(a + b) == Total(a) + Total(b)
  {
    if a == [] {
      assert a + b == b;
    } else {
      TotalConcat(a[1..], b);
      assert (a + b)[1..] == a[1..] + b;
    }
  }

  lemma {:induction false} TotalIsFold(bins: Bins)
    ensures Total(bins) == Fold(bins, Volume, Add, 0)
  {
    if bins != [] {
      var n := |bins| - 1;
      TotalIsFold(bins[..n]);
      assert bins == bins[..n] + [bins[n]];
      TotalConcat(bins[..n], [bins[n]]);
      assert [bins[n]][1..] == [];
    }
  }

  lemma TotalPermuted(a: Bins, b: Bins)
    requires multiset(a) == multiset(b)
    ensures Total(a) == Total(b)
  {
    hide Total, Fold;
    TotalIsFold(a);
    TotalIsFold(b);
    AddCommutes();
    FoldPermuted(a, b, Volume, Add, 0);
  }

  lemma {:induction false} TotalIsSum(bins: Bins, k: nat)
    requires k <= |bins|
    ensures Sum(Map(Volume, bins), 0, k) + Total(bins[k..]) == Total(bins)
  {
    if k > 0 {
      TotalIsSum(bins, k - 1);
      assert bins[k - 1..][1..] == bins[k..];
    } else {
      assert bins[0..] == bins;
    }
  }

  lemma LadderTotal(bins: Bins)
    ensures Sum(Map(Volume, Ladder(bins)), 0, |bins|) == Total(bins)
  {
    TotalPermuted(Ladder(bins), bins);
    TotalIsSum(Ladder(bins), |bins|);
    assert Ladder(bins)[|bins|..] == [];
  }

  lemma LadderNonNegative(bins: Bins)
    requires forall i :: 0 <= i < |bins| ==> bins[i].1 >= 0
    ensures forall i :: 0 <= i < |bins| ==> Map(Volume, Ladder(bins))[i] >= 0
  {
    forall i | 0 <= i < |bins| ensures Ladder(bins)[i].1 >= 0 {
      assert Ladder(bins)[i] in multiset(bins);
    }
  }

  /** `result`: total volume, the point of control and value area as positions in the price ladder, and the
      levels flagged as high- and low-volume nodes. */
  datatype Profile = Empty | Profile(total: int, ladder: Bins, poc: nat, lo: nat, hi: nat, hvn: Bins, lvn: Bins)

  class VolumeProfile {
    const binSize: real
    var bins: Bins
    ghost var trades: seq<Trade>

    ghost predicate Valid()
      reads this
    {
      && binSize > 0.0 && DistinctBins(bins) && Total(bins) == Traded(trades)
      && (forall b :: VolumeIn(bins, b) == TradedIn(trades, binSize, b))
      && ((forall i :: 0 <= i < |trades| ==> trades[i].size >= 0) ==> forall i :: 0 <= i < |bins| ==> bins[i].1 >= 0)
    }

    constructor (binSize: real)
      requires binSize > 0.0
      ensures Valid() && trades == []
    {
      this.binSize := binSize;
      bins, trades := [], [];
    }

    /** No volume is lost or moved: every bin holds the sizes of the trades priced in it. */
    method OnTrade(t: Trade)
      requires Valid()
      modifies this
      ensures Valid() && trades == old(trades) + [t]
    {
      hide AddTo, BinOf;
      var b := BinOf(t.price, binSize);
      ghost var before, was := trades, bins;
      bins := AddTo(bins, b, t.size);
      trades := trades + [t];
      assert trades[..|before|] == before;
      forall c ensures VolumeIn(bins, c) == TradedIn(trades, binSize, c) {
        AddToConserves(was, b, t.size, c);
      }
      AddToConserves(was, b, t.size, b);
      AddToKeys(was, b, t.size);
      if forall i :: 0 <= i < |trades| ==> trades[i].size >= 0 {
        assert forall i :: 0 <= i < |before| ==> before[i] == trades[i];
        assert t == trades[|before|];
        AddToNonNegative(was, b, t.size);
      }
    }

    method Result(pct: real, high: real, low: real) returns (r: Profile)
      requires Valid() && forall i :: 0 <= i < |trades| ==> trades[i].size >= 0
      ensures r.Empty? <==> Traded(trades) == 0
      ensures r.Profile? ==> r.total == Traded(trades) && r.ladder == Ladder(bins) && Faithful(r, pct) && Flagged(r, high, low)
    {
      hide Faithful, Flagged;
      r := ProfileOf(bins, pct, high, low);
    }
  }

  /** What a profile promises about its point of control and value area: the target is the fraction `pct` of
      the total. */
  ghost predicate Faithful(r: Profile, pct: real)
    requires r.Profile?
  {
    FaithfulTo(r, pct, r.total as real * pct)
  }

  ghost predicate FaithfulTo(r: Profile, pct: real, target: real)
    requires r.Profile?
  {
    var v := Map(Volume, r.ladder);
    && r.lo <= r.poc <= r.hi < |v| && (r.lo, r.hi) == Expand(v, r.poc, r.poc, target)
    && (forall i :: 0 <= i < |v| ==> v[i] <= v[r.poc] && (i < r.poc ==> v[i] < v[r.poc]))
    && (pct <= 1.0 ==> Sum(v, r.lo, r.hi + 1) as real >= target)
    && (Unimodal(v, r.poc) ==> NoSmallerBand(v, r.hi - r.lo, target))
  }

  function HighNode(high: real): ((real, int)) -> bool {
    (level: (real, int)) => level.1 as real >= high
  }

  function LowNode(low: real): ((real, int)) -> bool {
    (level: (real, int)) => level.1 as real <= low
  }

  /** A threshold of zero flags nothing. */
  function Nodes(ladder: Bins, threshold: real, p: ((real, int)) -> bool): Bins {
    if threshold > 0.0 then Filter(ladder, p) else []
  }

  /** The flagged levels are exactly those that meet a positive threshold, in price order. */
  ghost predicate Flagged(r: Profile, high: real, low: real)
    requires r.Profile?
  {
    && (forall x :: x in r.hvn <==> high > 0.0 && x in r.ladder && x.1 as real >= high)
    && (forall x :: x in r.lvn <==> low > 0.0 && x in r.ladder && x.1 as real <= low)
    && Sorted(r.hvn, PriceAtMost) && Sorted(r.lvn, PriceAtMost)
  }

  lemma NodesMean(bins: Bins, threshold: real, p: ((real, int)) -> bool)
    ensures forall x :: x in Nodes(Ladder(bins), threshold, p) <==> threshold > 0.0 && x in Ladder(bins) && p(x)
    ensures Sorted(Nodes(Ladder(bins), threshold, p), PriceAtMost)
  {
    hide Filter, Ladder, Sorted;
    forall x ensures x in Nodes(Ladder(bins), threshold, p) <==> threshold > 0.0 && x in Ladder(bins) && p(x) {
      FilterMember(Ladder(bins), p, x);
    }
    LadderSorted(bins);
    if threshold > 0.0 {
      FilterSorted(Ladder(bins), PriceAtMost, p);
      AllPairsSorted(Ladder(bins), p);
    } else {
      NothingSorted();
    }
  }

  lemma NothingSorted()
    ensures Sorted<(real, int)>([], PriceAtMost)
  {
  }

  lemma AllPairsSorted(ladder: Bins, p: ((real, int)) -> bool)
    requires Sorted(ladder, PriceAtMost)
    ensures PairsSorted(ladder, PriceAtMost, p)
  {
  }

  lemma LadderSorted(bins: Bins)
    ensures Sorted(Ladder(bins), PriceAtMost)
  {
    SortSorted(bins, PriceAtMost);
  }

  method ProfileOf(bins: Bins, pct: real, high: real, low: real) returns (r: Profile)
    requires forall i :: 0 <= i < |bins| ==> bins[i].1 >= 0
    ensures r.Empty? <==> Total(bins) == 0
    ensures r.Profile? ==> r.total == Total(bins) && r.ladder == Ladder(bins) && Faithful(r, pct) && Flagged(r, high, low)
  {
    hide Unimodal, NoSmallerBand, Sum, Ladder, Expand, Nodes, Sorted, TargetOf, Faithful;
    var total := Total(bins);
    if bins == [] || total == 0 {
      return Empty;
    }
    var ladder := Ladder(bins);
    var v := Map(Volume, ladder);
    LadderTotal(bins);
    LadderNonNegative(bins);
    SumNonNegative(v, 0, |v|);
    FractionOf(total, pct);
    var poc := PointOfControl(v);
    var target := TargetOf(total, pct);
    var lo, hi := ValueArea(v, poc, target);
    NodesMean(bins, high, HighNode(high));
    NodesMean(bins, low, LowNode(low));
    r := Profile(total, ladder, poc, lo, hi, Nodes(ladder, high, HighNode(high)), Nodes(ladder, low, LowNode(low)));
    FaithfulIs(r, pct);
  }

  function TargetOf(total: int, pct: real): real {
    total as real * pct
  }

  lemma FaithfulIs(r: Profile, pct: real)
    requires r.Profile? && FaithfulTo(r, pct, TargetOf(r.total, pct))
    ensures Faithful(r, pct)
  {
    hide FaithfulTo;
  }

  lemma FractionOf(total: int, pct: real)
    requires total >= 0
    ensures pct <= 1.0 ==> TargetOf(total, pct) <= total as real
  {
    if pct <= 1.0 {
      assert total as real * (1.0 - pct) >= 0.0;
    }
  }

  lemma {:induction false} AddToNonNegative(bins: Bins, b: real, n: int)
    requires n >= 0 && forall i :: 0 <= i < |bins| ==> bins[i].1 >= 0
    ensures forall i :: 0 <= i < |AddTo(bins, b, n)| ==> AddTo(bins, b, n)[i].1 >= 0
  {
    if bins != [] && bins[0].0 != b {
      AddToNonNegative(bins[1..], b, n);
    }
  }
}

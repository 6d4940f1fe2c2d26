/** The walk-forward harness: splitting a calendar into train, embargo and test windows, purging, and
    choosing on the train window what is then evaluated on the test window. */
module WalkForward {

  import opened Seqs

  /** A session, by its calendar date counted in days: ISO dates compare as strings the way these do. */
  type Day = int

  datatype Scheme = Anchored | Rolling | Unknown(name: string)

  datatype Split = Split(index: nat, train: seq<Day>, test: seq<Day>, embargo: seq<Day>)

  /** `NeverEnds` stands for a call that does not come back. */
  datatype Error = NotAscending | DuplicateDays | UnknownScheme | BadSizes | NoValues | EmptyTest | NeverEnds

  datatype Result<+T> = Ok(value: T) | Err(error: Error)

  datatype Trade = Trade(day: Day, entryNs: int, exitNs: int, r: real)

  /** A metric is a number or, for a curve point without losers, infinity. */
  datatype Metric = Finite(value: real) | Infinite

  const NS: int := 1_000_000_000

  /** 09:15 India time, five and a half hours ahead of UTC, on that day. */
  function DayOpenNs(day: Day): int {
    (day * 86400 + 13500) * NS
  }

  /** In India, five and a half hours ahead, a session opens at a quarter past nine of its own day. */
  lemma OpensAtQuarterPastNine(day: Day)
    ensures var local := DayOpenNs(day) / NS + 5 * 3600 + 30 * 60;
            DayOpenNs(day) % NS == 0 && local / 86400 == day && local % 86400 == 9 * 3600 + 15 * 60
  {
    var seconds := day * 86400 + 13500;
    assert DayOpenNs(day) == seconds * NS;
  }

  // ---------------------------------------------------------------- slices as the source takes them

  function Clamp(x: int, n: nat): (r: nat)
    ensures r <= n && (0 <= x <= n ==> r == x)
  {
    if x < 0 then (if x + n < 0 then 0 else x + n) else if x > n then n else x
  }

  /** `s[a:b]`, with ends past the sequence cut off and negative ends counted from the back. */
  function PySlice(s: seq<Day>, a: int, b: int): (r: seq<Day>)
    ensures 0 <= a <= b <= |s| ==> r == s[a..b]
    ensures forall x :: x in r ==> x in s
  {
    var lo, hi := Clamp(a, |s|), Clamp(b, |s|);
    if lo < hi then s[lo..hi] else []
  }

  /** Negative ends count from the back, and ends past the sequence are cut off. */
  lemma SliceEnds(s: seq<Day>, a: int, b: int)
    ensures -|s| <= a < 0 ==> PySlice(s, a, b) == PySlice(s, a + |s|, b)
    ensures -|s| <= b < 0 ==> PySlice(s, a, b) == PySlice(s, a, b + |s|)
    ensures a < -|s| ==> PySlice(s, a, b) == PySlice(s, 0, b)
    ensures b < -|s| ==> PySlice(s, a, b) == []
    ensures a > |s| ==> PySlice(s, a, b) == []
    ensures b > |s| ==> PySlice(s, a, b) == PySlice(s, a, |s|)
    ensures 0 <= b <= a ==> PySlice(s, a, b) == []
  {
  }

  // ---------------------------------------------------------------- the splits

  /** How many days precede the boundary of split `i`. */
  function Boundary(trainSize: int, step: int, i: nat): int {
    trainSize + i * step
  }

  function SplitAt(days: seq<Day>, scheme: Scheme, trainSize: int, testSize: int, embargo: int, step: int, i: nat): Split {
    var k := Boundary(trainSize, step, i);
    Split(i,
          PySlice(days, if scheme == Anchored || k < trainSize then 0 else k - trainSize, k),
          PySlice(days, k + embargo, k + embargo + testSize),
          PySlice(days, k, k + embargo))
  }

  function StepOf(step: Option<int>, testSize: int): int {
    if step.None? || step.value == 0 then testSize else step.value
  }

  predicate Fits(n: nat, trainSize: int, testSize: int, embargo: int, step: int, i: nat) {
    Boundary(trainSize, step, i) + embargo + testSize <= n
  }

  /** What the arguments must meet; the errors are raised in this order. */
  ghost function Refusal(days: seq<Day>, scheme: Scheme, trainSize: int, testSize: int): Option<Error> {
    if !NonDecreasing(days) then Some(NotAscending)
    else if !Distinct(days) then Some(DuplicateDays)
    else if scheme.Unknown? then Some(UnknownScheme)
    else if trainSize < 1 || testSize < 1 then Some(BadSizes)
    else None
  }

  /** The list holds exactly the splits that fit the calendar, each at its place. */
  ghost predicate AllSplits(out: seq<Split>, days: seq<Day>, scheme: Scheme, trainSize: int, testSize: int, embargo: int, step: int) {
    && (forall i :: 0 <= i < |out| ==> out[i] == SplitAt(days, scheme, trainSize, testSize, embargo, step, i))
    && (forall i: nat :: i < |out| <==> Fits(|days|, trainSize, testSize, embargo, step, i))
  }

  method CheckOrder(days: seq<Day>) returns (sorted: bool, distinct: bool)
    ensures sorted <==> NonDecreasing(days)
    ensures sorted ==> (distinct <==> Distinct(days))
  {
    sorted, distinct := true, true;
    var i := 1;
    while i < |days|
      invariant 1 <= i
      invariant sorted <==> forall j, k :: 0 <= j < k < i && k < |days| ==> days[j] <= days[k]
      invariant sorted ==> (distinct <==> forall j, k :: 0 <= j < k < i && k < |days| ==> days[j] != days[k])
    {
      if days[i] < days[i - 1] {
        sorted := false;
      } else if days[i] == days[i - 1] {
        distinct := false;
      }
      i := i + 1;
    }
  }

  lemma BoundaryStart(trainSize: int, step: int)
    ensures Boundary(trainSize, step, 0) == trainSize
  {
  }

  lemma BoundaryNext(trainSize: int, step: int, i: nat)
    ensures Boundary(trainSize, step, i + 1) == Boundary(trainSize, step, i) + step
  {
  }

  lemma {:induction false} BoundaryGrows(trainSize: int, step: int, i: nat, j: nat)
    requires step >= 1 && i <= j
    ensures Boundary(trainSize, step, i) + (j - i) <= Boundary(trainSize, step, j)
    decreases j - i
  {
    if i < j {
      hide Boundary;
      BoundaryGrows(trainSize, step, i, j - 1);
      BoundaryNext(trainSize, step, j - 1);
    } else {
      assert Boundary(trainSize, step, i) == Boundary(trainSize, step, j);
    }
  }

  lemma NoMoreFit(n: nat, trainSize: int, testSize: int, embargo: int, step: int, m: nat, i: nat)
    requires step >= 1 && m <= i && !Fits(n, trainSize, testSize, embargo, step, m)
    ensures !Fits(n, trainSize, testSize, embargo, step, i)
  {
    BoundaryGrows(trainSize, step, m, i);
  }

  method BuildSplits(days: seq<Day>, scheme: Scheme, trainSize: int, testSize: int, embargo: int, step: int)
    returns (out: seq<Split>)
    requires step >= 1
    ensures AllSplits(out, days, scheme, trainSize, testSize, embargo, step)
  {
    hide Boundary, PySlice;
    out := [];
    var k := trainSize;
    BoundaryStart(trainSize, step);
    while k + embargo + testSize <= |days|
      invariant k == Boundary(trainSize, step, |out|)
      invariant forall i :: 0 <= i < |out| ==> out[i] == SplitAt(days, scheme, trainSize, testSize, embargo, step, i)
      invariant forall i :: 0 <= i < |out| ==> Fits(|days|, trainSize, testSize, embargo, step, i)
      decreases |days| - k - embargo - testSize
    {
      BoundaryNext(trainSize, step, |out|);
      var train := PySlice(days, if scheme == Anchored || k < trainSize then 0 else k - trainSize, k);
      var emb := PySlice(days, k, k + embargo);
      var test := PySlice(days, k + embargo, k + embargo + testSize);
      out := out + [Split(|out|, train, test, emb)];
      k := k + step;
    }
    assert !Fits(|days|, trainSize, testSize, embargo, step, |out|);
    forall i: nat ensures i < |out| <==> Fits(|days|, trainSize, testSize, embargo, step, i) {
      if i >= |out| {
        NoMoreFit(|days|, trainSize, testSize, embargo, step, |out|, i);
      }
    }
  }

  /** With a negative step every later boundary fits if the first does: the source's loop would not end. */
  lemma {:induction false} NegativeStepNeverEnds(n: nat, trainSize: int, testSize: int, embargo: int, step: int, i: nat)
    requires step < 0 && Fits(n, trainSize, testSize, embargo, step, 0)
    ensures Fits(n, trainSize, testSize, embargo, step, i)
  {
    if i > 0 {
      NegativeStepNeverEnds(n, trainSize, testSize, embargo, step, i - 1);
      BoundaryNext(trainSize, step, i - 1);
    }
  }

  /** A negative step is not refused: the loop is either never entered or never left, and it is never left
      exactly when every boundary fits. */
  method WalkForwardSplits(days: seq<Day>, scheme: Scheme, trainSize: int, testSize: int, embargo: int, step: Option<int>)
    returns (r: Result<seq<Split>>)
    ensures match Refusal(days, scheme, trainSize, testSize)
            case Some(e) => r == Err(e)
            case None =>
              && (r.Err? ==> r.error == NeverEnds)
              && (r.Err? <==> forall i: nat :: Fits(|days|, trainSize, testSize, embargo, StepOf(step, testSize), i))
              && (trainSize + embargo + testSize > |days| ==> r == Ok([]))
              && (StepOf(step, testSize) >= 1 ==>
                    r.Ok? && AllSplits(r.value, days, scheme, trainSize, testSize, embargo, StepOf(step, testSize)))
  {
    hide NonDecreasing, Distinct, AllSplits, SplitAt;
    var sorted, distinct := CheckOrder(days);
    if !sorted { return Err(NotAscending); }
    if !distinct { return Err(DuplicateDays); }
    if scheme.Unknown? { return Err(UnknownScheme); }
    if trainSize < 1 || testSize < 1 { return Err(BadSizes); }
    var stride := StepOf(step, testSize);
    BoundaryStart(trainSize, stride);
    if stride < 1 {
      if trainSize + embargo + testSize > |days| {
        assert !Fits(|days|, trainSize, testSize, embargo, stride, 0);
        return Ok([]);
      }
      forall i: nat ensures Fits(|days|, trainSize, testSize, embargo, stride, i) {
        NegativeStepNeverEnds(|days|, trainSize, testSize, embargo, stride, i);
      }
      return Err(NeverEnds);
    }
    var out := BuildSplits(days, scheme, trainSize, testSize, embargo, stride);
    NoneFit(out, days, scheme, trainSize, testSize, embargo, stride);
    return Ok(out);
  }

  lemma NoneFit(out: seq<Split>, days: seq<Day>, scheme: Scheme, trainSize: int, testSize: int, embargo: int, step: int)
    requires AllSplits(out, days, scheme, trainSize, testSize, embargo, step)
    ensures trainSize + embargo + testSize > |days| ==> out == []
    ensures !Fits(|days|, trainSize, testSize, embargo, step, |out|)
  {
    BoundaryStart(trainSize, step);
    assert 0 < |out| <==> Fits(|days|, trainSize, testSize, embargo, step, 0);
  }

  // ---------------------------------------------------------------- no leakage between windows

  ghost predicate AllBefore(a: seq<Day>, b: seq<Day>) {
    forall x, y :: x in a && y in b ==> x < y
  }

  /** The windows of one split: where they lie and that they follow one another. */
  ghost predicate Separate(s: Split) {
    AllBefore(s.train, s.embargo) && AllBefore(s.embargo, s.test) && AllBefore(s.train, s.test)
  }

  lemma SliceBefore(days: seq<Day>, a: nat, b: nat, c: nat, d: nat)
    requires Increasing(days) && a <= b <= c <= d <= |days|
    ensures AllBefore(days[a..b], days[c..d])
  {
  }

  /** Where the three windows of a split that fits lie, for an embargo of zero or more days. */
  lemma WindowsLie(days: seq<Day>, scheme: Scheme, trainSize: int, testSize: int, embargo: int, step: int, i: nat)
    requires trainSize >= 1 && testSize >= 1 && embargo >= 0 && step >= 1 && !scheme.Unknown?
    requires Fits(|days|, trainSize, testSize, embargo, step, i)
    ensures var s, k := SplitAt(days, scheme, trainSize, testSize, embargo, step, i), Boundary(trainSize, step, i);
            && trainSize <= k && k + embargo + testSize <= |days|
            && s.train == days[if scheme == Anchored then 0 else k - trainSize..k]
            && s.embargo == days[k..k + embargo]
            && s.test == days[k + embargo..k + embargo + testSize]
  {
    BoundaryGrows(trainSize, step, 0, i);
  }

  /** Every split's train days precede its embargo days, which precede its test days; no window is short. */
  lemma NoLeak(days: seq<Day>, scheme: Scheme, trainSize: int, testSize: int, embargo: int, step: int, i: nat)
    requires Increasing(days) && trainSize >= 1 && testSize >= 1 && embargo >= 0 && step >= 1 && !scheme.Unknown?
    requires Fits(|days|, trainSize, testSize, embargo, step, i)
    ensures var s := SplitAt(days, scheme, trainSize, testSize, embargo, step, i);
            && Separate(s) && |s.test| == testSize && |s.embargo| == embargo
            && |s.train| == (if scheme == Anchored then Boundary(trainSize, step, i) else trainSize)
  {
    hide AllBefore;
    WindowsLie(days, scheme, trainSize, testSize, embargo, step, i);
    var k := Boundary(trainSize, step, i);
    var lo := if scheme == Anchored then 0 else k - trainSize;
    SliceBefore(days, lo, k, k, k + embargo);
    SliceBefore(days, k, k + embargo, k + embargo, k + embargo + testSize);
    SliceBefore(days, lo, k, k + embargo, k + embargo + testSize);
  }

  /** A negative embargo is not refused: a split whose test window starts in the calendar, no further back
      than its train window, trains on a day it tests on. */
  lemma NegativeEmbargoLeaks(days: seq<Day>, scheme: Scheme, trainSize: int, testSize: int, embargo: int, step: int, i: nat)
    requires trainSize >= 1 && testSize >= 1 && embargo < 0 && step >= 1 && !scheme.Unknown?
    requires Fits(|days|, trainSize, testSize, embargo, step, i) && 0 <= Boundary(trainSize, step, i) + embargo
    requires scheme == Anchored || -trainSize <= embargo
    ensures var s := SplitAt(days, scheme, trainSize, testSize, embargo, step, i);
            exists d :: d in s.train && d in s.test
  {
    BoundaryGrows(trainSize, step, 0, i);
    BoundaryStart(trainSize, step);
    var k := Boundary(trainSize, step, i);
    hide Boundary;
    var s := SplitAt(days, scheme, trainSize, testSize, embargo, step, i);
    var lo := if scheme == Anchored then 0 else k - trainSize;
    var hi := if k < |days| then k else |days|;
    assert s.test == days[k + embargo..k + embargo + testSize];
    assert s.train == days[lo..hi];
    var d := days[k + embargo];
    assert s.test[0] == d && s.train[k + embargo - lo] == d;
    assert d in s.train && d in s.test;
  }

  // ---------------------------------------------------------------- exactly when windows are separate

  /** The stretch of the calendar a slice takes. */
  function Stretch(n: nat, a: int, b: int): (r: (nat, nat))
    ensures r.0 <= r.1 <= n
  {
    var lo, hi := Clamp(a, n), Clamp(b, n);
    if lo < hi then (lo, hi) else (0, 0)
  }

  /** One stretch is empty or ends before the other starts. */
  predicate Follows(w: (nat, nat), v: (nat, nat)) {
    w.0 == w.1 || v.0 == v.1 || w.1 <= v.0
  }

  lemma SliceIsStretch(days: seq<Day>, a: int, b: int)
    ensures var r := Stretch(|days|, a, b); PySlice(days, a, b) == days[r.0..r.1]
  {
  }

  lemma BeforeIff(days: seq<Day>, w: (nat, nat), v: (nat, nat))
    requires Increasing(days) && w.0 <= w.1 <= |days| && v.0 <= v.1 <= |days|
    ensures AllBefore(days[w.0..w.1], days[v.0..v.1]) <==> Follows(w, v)
  {
    if Follows(w, v) {
      if w.0 < w.1 && v.0 < v.1 {
        SliceBefore(days, w.0, w.1, v.0, v.1);
      }
    } else {
      var x, y := days[w.0..w.1], days[v.0..v.1];
      assert x[|x| - 1] in x && y[0] in y;
      assert x[|x| - 1] == days[w.1 - 1] && y[0] == days[v.0];
    }
  }

  /** The three stretches of a split with `k` days before its boundary. */
  predicate Apart(n: nat, lo: int, k: int, embargo: int, testSize: int) {
    var train, gap, test := Stretch(n, lo, k), Stretch(n, k, k + embargo), Stretch(n, k + embargo, k + embargo + testSize);
    Follows(train, gap) && Follows(gap, test) && Follows(train, test)
  }

  /** The stretches are apart exactly when the embargo is not negative, or there is nothing to train on, or
      the test slice counts from the back of the calendar and, unless it is empty, still lies past the front. */
  lemma ApartIff(n: nat, lo: int, k: int, embargo: int, testSize: int)
    requires 0 <= lo < k && testSize >= 1 && k + embargo + testSize <= n
    ensures Apart(n, lo, k, embargo, testSize) <==>
            || embargo >= 0 || n <= lo
            || (k + embargo < 0 &&
                (Stretch(n, k + embargo, k + embargo + testSize).0 == Stretch(n, k + embargo, k + embargo + testSize).1
                 || -embargo <= n))
  {
  }

  /** What a caller can work out of the sizes alone: whether split `i` keeps its windows apart. */
  predicate KeepsApart(n: nat, scheme: Scheme, trainSize: int, testSize: int, embargo: int, step: int, i: nat) {
    var k := Boundary(trainSize, step, i);
    var test := Stretch(n, k + embargo, k + embargo + testSize);
    || embargo >= 0 || n <= (if scheme == Anchored then 0 else k - trainSize)
    || (k + embargo < 0 && (test.0 == test.1 || -embargo <= n))
  }

  lemma SeparateExactly(days: seq<Day>, scheme: Scheme, trainSize: int, testSize: int, embargo: int, step: int, i: nat)
    requires Increasing(days) && trainSize >= 1 && testSize >= 1 && step >= 1 && !scheme.Unknown?
    requires Fits(|days|, trainSize, testSize, embargo, step, i)
    ensures Separate(SplitAt(days, scheme, trainSize, testSize, embargo, step, i)) <==>
            KeepsApart(|days|, scheme, trainSize, testSize, embargo, step, i)
  {
    hide Boundary, Separate, SplitAt, Apart, Stretch, Increasing;
    BoundaryGrows(trainSize, step, 0, i);
    BoundaryStart(trainSize, step);
    var k := Boundary(trainSize, step, i);
    SplitApart(days, scheme, trainSize, testSize, embargo, step, i);
    ApartIff(|days|, if scheme == Anchored then 0 else k - trainSize, k, embargo, testSize);
  }

  lemma SplitApart(days: seq<Day>, scheme: Scheme, trainSize: int, testSize: int, embargo: int, step: int, i: nat)
    requires Increasing(days) && Boundary(trainSize, step, i) >= trainSize
    ensures var k := Boundary(trainSize, step, i);
            Separate(SplitAt(days, scheme, trainSize, testSize, embargo, step, i)) <==>
            Apart(|days|, if scheme == Anchored then 0 else k - trainSize, k, embargo, testSize)
  {
    hide Boundary, AllBefore, PySlice, Follows, Stretch, Increasing;
    var n, k := |days|, Boundary(trainSize, step, i);
    var lo := if scheme == Anchored then 0 else k - trainSize;
    SliceIsStretch(days, lo, k);
    SliceIsStretch(days, k, k + embargo);
    SliceIsStretch(days, k + embargo, k + embargo + testSize);
    BeforeIff(days, Stretch(n, lo, k), Stretch(n, k, k + embargo));
    BeforeIff(days, Stretch(n, k, k + embargo), Stretch(n, k + embargo, k + embargo + testSize));
    BeforeIff(days, Stretch(n, lo, k), Stretch(n, k + embargo, k + embargo + testSize));
  }

  /** For every embargo: a calendar's splits are all separate exactly when all of them keep apart, which for
      an embargo of at least minus the train size means that it is not negative or that no split fits. */
  lemma SeparateIff(days: seq<Day>, scheme: Scheme, trainSize: int, testSize: int, embargo: int, step: int)
    requires Increasing(days) && trainSize >= 1 && testSize >= 1 && step >= 1 && !scheme.Unknown?
    ensures (forall i: nat :: Fits(|days|, trainSize, testSize, embargo, step, i) ==>
                              Separate(SplitAt(days, scheme, trainSize, testSize, embargo, step, i)))
            <==> (forall i: nat :: Fits(|days|, trainSize, testSize, embargo, step, i) ==>
                                   KeepsApart(|days|, scheme, trainSize, testSize, embargo, step, i))
    ensures -trainSize <= embargo ==>
              ((forall i: nat :: Fits(|days|, trainSize, testSize, embargo, step, i) ==>
                                 Separate(SplitAt(days, scheme, trainSize, testSize, embargo, step, i)))
               <==> embargo >= 0 || !Fits(|days|, trainSize, testSize, embargo, step, 0))
  {
    hide Separate, SplitAt, KeepsApart;
    forall i: nat | Fits(|days|, trainSize, testSize, embargo, step, i)
      ensures Separate(SplitAt(days, scheme, trainSize, testSize, embargo, step, i)) <==>
              KeepsApart(|days|, scheme, trainSize, testSize, embargo, step, i)
    {
      SeparateExactly(days, scheme, trainSize, testSize, embargo, step, i);
    }
    if -trainSize <= embargo {
      if embargo >= 0 {
        forall i: nat | Fits(|days|, trainSize, testSize, embargo, step, i)
          ensures Separate(SplitAt(days, scheme, trainSize, testSize, embargo, step, i))
        {
          NoLeak(days, scheme, trainSize, testSize, embargo, step, i);
        }
      } else if Fits(|days|, trainSize, testSize, embargo, step, 0) {
        BoundaryStart(trainSize, step);
        NegativeEmbargoLeaks(days, scheme, trainSize, testSize, embargo, step, 0);
        Overlapping(SplitAt(days, scheme, trainSize, testSize, embargo, step, 0));
      } else {
        forall i: nat ensures !Fits(|days|, trainSize, testSize, embargo, step, i) {
          BoundaryGrows(trainSize, step, 0, i);
        }
      }
    }
  }

  /** An embargo of minus six days that keeps ten days' first split apart: it trains on days 0 to 2 and tests
      on days 7 and 8. */
  lemma WrappedEmbargoKeepsApart()
    ensures var days := [0, 1, 2, 3, 4, 5, 6, 7, 8, 9];
            && Fits(|days|, 3, 2, -6, 2, 0) && SplitAt(days, Anchored, 3, 2, -6, 2, 0) == Split(0, [0, 1, 2], [7, 8], [3, 4, 5, 6])
            && Separate(SplitAt(days, Anchored, 3, 2, -6, 2, 0))
  {
    var days := [0, 1, 2, 3, 4, 5, 6, 7, 8, 9];
    assert days[0..3] == [0, 1, 2] && days[3..7] == [3, 4, 5, 6] && days[7..9] == [7, 8];
    SeparateExactly(days, Anchored, 3, 2, -6, 2, 0);
  }

  lemma Overlapping(s: Split)
    requires exists d :: d in s.train && d in s.test
    ensures !Separate(s)
  {
    var d :| d in s.train && d in s.test;
    assert AllBefore(s.train, s.test) ==> d < d;
  }

  // ---------------------------------------------------------------- consecutive test windows

  ghost function TestWindows(splits: seq<Split>): seq<seq<Day>> {
    if splits == [] then [] else TestWindows(splits[..|splits| - 1]) + [splits[|splits| - 1].test]
  }

  lemma TestWindowsSnoc(out: seq<Split>, m: nat)
    requires 0 < m <= |out|
    ensures TestWindows(out[..m]) == TestWindows(out[..m - 1]) + [out[m - 1].test]
  {
    assert out[..m][..m - 1] == out[..m - 1];
  }

  lemma NoTestWindows(out: seq<Split>)
    ensures Flatten(TestWindows(out[..0])) == []
  {
  }

  lemma SliceJoin(days: seq<Day>, a: nat, b: nat, c: nat)
    requires a <= b <= c <= |days|
    ensures days[a..b] + days[b..c] == days[a..c]
    ensures a == b ==> [] + days[b..c] == days[a..c]
  {
  }

  lemma SplitIs(out: seq<Split>, days: seq<Day>, scheme: Scheme, trainSize: int, testSize: int, embargo: int, step: int, i: nat)
    requires AllSplits(out, days, scheme, trainSize, testSize, embargo, step) && i < |out|
    ensures out[i] == SplitAt(days, scheme, trainSize, testSize, embargo, step, i) && Fits(|days|, trainSize, testSize, embargo, step, i)
  {
    hide SplitAt, Fits;
  }

  /** The first `m` test windows laid end to end. */
  ghost predicate Covered(out: seq<Split>, days: seq<Day>, from: int, to: int, m: nat) {
    m <= |out| && 0 <= from <= to && (m > 0 ==> to <= |days|)
    && Flatten(TestWindows(out[..m])) == (if m == 0 then [] else days[from..to])
  }

  lemma CoveredNext(out: seq<Split>, days: seq<Day>, from: int, was: int, to: int, m: nat)
    requires Covered(out, days, from, was, m) && m < |out| && was <= to <= |days| && out[m].test == days[was..to]
    requires m == 0 ==> from == was
    ensures Covered(out, days, from, to, m + 1)
  {
    hide Flatten, TestWindows;
    TestWindowsSnoc(out, m + 1);
    FlattenSnoc(TestWindows(out[..m]), out[m].test);
    SliceJoin(days, from, was, to);
  }

  lemma CoveredNone(out: seq<Split>, days: seq<Day>, from: nat)
    ensures Covered(out, days, from, from, 0)
  {
    NoTestWindows(out);
  }

  lemma {:induction false} TestWindowsCover(out: seq<Split>, days: seq<Day>, scheme: Scheme, trainSize: int, testSize: int, embargo: int, m: nat)
    requires trainSize >= 1 && testSize >= 1 && embargo >= 0 && !scheme.Unknown?
    requires AllSplits(out, days, scheme, trainSize, testSize, embargo, testSize) && m <= |out|
    ensures Covered(out, days, trainSize + embargo, Boundary(trainSize, testSize, m) + embargo, m)
  {
    hide *;
    BoundaryStart(trainSize, testSize);
    if m > 0 {
      TestWindowsCover(out, days, scheme, trainSize, testSize, embargo, m - 1);
      SplitIs(out, days, scheme, trainSize, testSize, embargo, testSize, m - 1);
      WindowsLie(days, scheme, trainSize, testSize, embargo, testSize, m - 1);
      BoundaryNext(trainSize, testSize, m - 1);
      var was := Boundary(trainSize, testSize, m - 1) + embargo;
      CoveredNext(out, days, trainSize + embargo, was, was + testSize, m - 1);
    } else {
      CoveredNone(out, days, trainSize + embargo);
    }
  }

  /** With the default step the test windows, laid end to end, are the calendar from the first test day on:
      consecutive, disjoint, and short of the end by less than one window. */
  lemma TestWindowsConsecutive(out: seq<Split>, days: seq<Day>, scheme: Scheme, trainSize: int, testSize: int, embargo: int)
    requires trainSize >= 1 && testSize >= 1 && embargo >= 0 && !scheme.Unknown?
    requires AllSplits(out, days, scheme, trainSize, testSize, embargo, testSize)
    ensures out == [] <==> |days| < trainSize + embargo + testSize
    ensures out != [] ==>
              var to := Boundary(trainSize, testSize, |out|) + embargo;
              && trainSize + embargo < to <= |days| < to + testSize
              && Flatten(TestWindows(out)) == days[trainSize + embargo..to]
  {
    hide Boundary, SplitAt, Flatten, TestWindows;
    BoundaryStart(trainSize, testSize);
    assert 0 < |out| <==> Fits(|days|, trainSize, testSize, embargo, testSize, 0);
    if out != [] {
      var m := |out|;
      TestWindowsCover(out, days, scheme, trainSize, testSize, embargo, m);
      assert out[..m] == out;
      var to := Boundary(trainSize, testSize, m) + embargo;
      BoundaryGrows(trainSize, testSize, 0, m);
      assert !Fits(|days|, trainSize, testSize, embargo, testSize, m);
    }
  }

  // ---------------------------------------------------------------- purge and embargo

  function PurgeTrain(trades: seq<Trade>, testStartNs: int): (r: seq<Trade>)
    ensures forall t :: t in r <==> t in trades && t.exitNs < testStartNs
  {
    if trades == [] then []
    else
      (if trades[0].exitNs < testStartNs then [trades[0]] else []) + PurgeTrain(trades[1..], testStartNs)
  }

  function EmbargoTest(trades: seq<Trade>, testStartNs: int, embargoNs: int): (r: seq<Trade>)
    ensures forall t :: t in r <==> t in trades && t.entryNs >= testStartNs + embargoNs
  {
    if trades == [] then []
    else
      (if trades[0].entryNs >= testStartNs + embargoNs then [trades[0]] else [])
      + EmbargoTest(trades[1..], testStartNs, embargoNs)
  }

  /** Every trade used for choosing has exited more than the embargo before any trade used for judging
      is entered. */
  lemma PurgeThenEmbargo(train: seq<Trade>, test: seq<Trade>, testStartNs: int, embargoNs: int)
    ensures forall a, b :: a in PurgeTrain(train, testStartNs) && b in EmbargoTest(test, testStartNs, embargoNs) ==>
                           a.exitNs + embargoNs < b.entryNs
  {
  }

  lemma {:induction false} PurgeConcat(a: seq<Trade>, b: seq<Trade>, testStartNs: int)
    ensures PurgeTrain(a + b, testStartNs) == PurgeTrain(a, testStartNs) + PurgeTrain(b, testStartNs)
  {
    if a == [] {
      assert a + b == b;
    } else {
      assert (a + b)[1..] == a[1..] + b;
      PurgeConcat(a[1..], b, testStartNs);
    }
  }

  /** Both keep what they keep in order and once. */
  lemma {:induction false} PurgeIsFilter(trades: seq<Trade>, t: int)
    ensures PurgeTrain(trades, t) == Filter(trades, (x: Trade) => x.exitNs < t)
  {
    if trades != [] {
      PurgeIsFilter(trades[1..], t);
    }
  }

  lemma {:induction false} EmbargoIsFilter(trades: seq<Trade>, t: int, embargoNs: int)
    ensures EmbargoTest(trades, t, embargoNs) == Filter(trades, (x: Trade) => x.entryNs >= t + embargoNs)
  {
    if trades != [] {
      EmbargoIsFilter(trades[1..], t, embargoNs);
    }
  }

  // ---------------------------------------------------------------- choosing a value

  predicate Less(a: Metric, b: Metric) {
    a.Finite? && (b.Infinite? || a.value < b.value)
  }

  /** The chosen point is a largest one, and the earliest of those: infinity beats every number. */
  lemma ArgmaxIsFirst(curve: seq<Metric>)
    requires curve != []
    ensures var best := FirstMax(curve, Less);
            && (forall j :: 0 <= j < |curve| ==> !Less(curve[best], curve[j]))
            && (forall j :: 0 <= j < best ==> Less(curve[j], curve[best]))
  {
    FirstMaxIsFirst(curve, Less);
  }

  // ---------------------------------------------------------------- the sweep

  /** A strategy seen through its evaluator: the trades of one parameter value on one day. */
  type Strategy = (real, Day) -> seq<Trade>

  type Selector = seq<real> -> Metric

  /** An evaluator that works day by day: `evaluator(v, days)`. */
  function Evaluate(strategy: Strategy, v: real, days: seq<Day>): seq<Trade> {
    if days == [] then [] else strategy(v, days[0]) + Evaluate(strategy, v, days[1..])
  }

  function Outcomes(trades: seq<Trade>): seq<real> {
    Map((t: Trade) => t.r, trades)
  }

  /** One point of the curve: the metric of the purged train trades at value `v`. */
  function Score(strategy: Strategy, select: Selector, s: Split, v: real): Metric
    requires s.test != []
  {
    select(Outcomes(PurgeTrain(Evaluate(strategy, v, s.train), DayOpenNs(s.test[0]))))
  }

  function Curve(strategy: Strategy, select: Selector, s: Split, values: seq<real>): (r: seq<Metric>)
    requires s.test != []
    ensures |r| == |values|
  {
    if values == [] then []
    else Curve(strategy, select, s, values[..|values| - 1]) + [Score(strategy, select, s, values[|values| - 1])]
  }

  function Chosen(strategy: Strategy, select: Selector, s: Split, values: seq<real>): real
    requires s.test != [] && values != []
  {
    values[FirstMax(Curve(strategy, select, s, values), Less)]
  }

  /** The out-of-sample returns of one split: the chosen value on the embargoed test window. */
  function OutOfSample(strategy: Strategy, select: Selector, s: Split, values: seq<real>, embargoNs: int): seq<real>
    requires s.test != [] && values != []
  {
    Outcomes(EmbargoTest(Evaluate(strategy, Chosen(strategy, select, s, values), s.test), DayOpenNs(s.test[0]), embargoNs))
  }

  datatype Row = Row(split: Split, chosen: real, oos: seq<real>)

  function RowOf(strategy: Strategy, select: Selector, s: Split, values: seq<real>, embargoNs: int): Row
    requires s.test != [] && values != []
  {
    Row(s, Chosen(strategy, select, s, values), OutOfSample(strategy, select, s, values, embargoNs))
  }

  lemma RowIs(strategy: Strategy, select: Selector, s: Split, values: seq<real>, embargoNs: int, best: nat)
    requires s.test != [] && values != [] && best == FirstMax(Curve(strategy, select, s, values), Less)
    ensures RowOf(strategy, select, s, values, embargoNs)
         == Row(s, values[best], Outcomes(EmbargoTest(Evaluate(strategy, values[best], s.test), DayOpenNs(s.test[0]), embargoNs)))
  {
  }

  /** What a value scores on a split: the metric of the returns of its train trades that exit before the first
      test day opens. */
  function TrainMetric(strategy: Strategy, select: Selector, s: Split, v: real): Metric
    requires s.test != []
  {
    var open := DayOpenNs(s.test[0]);
    select(Map((t: Trade) => t.r, Filter(Evaluate(strategy, v, s.train), (x: Trade) => x.exitNs < open)))
  }

  lemma {:induction false} CurveIs(strategy: Strategy, select: Selector, s: Split, values: seq<real>)
    requires s.test != []
    ensures forall i :: 0 <= i < |values| ==> Curve(strategy, select, s, values)[i] == TrainMetric(strategy, select, s, values[i])
  {
    if values != [] {
      var n := |values| - 1;
      CurveIs(strategy, select, s, values[..n]);
      PurgeIsFilter(Evaluate(strategy, values[n], s.train), DayOpenNs(s.test[0]));
    }
  }

  /** The value of a row is the first of the values declared that none beats on the train window, and its returns
      are those of that value's test trades entered at least the embargo after the first test day opens. */
  lemma RowMeans(strategy: Strategy, select: Selector, s: Split, values: seq<real>, embargoNs: int) returns (k: nat)
    requires s.test != [] && values != []
    ensures var row, open := RowOf(strategy, select, s, values, embargoNs), DayOpenNs(s.test[0]);
            && k < |values| && row.split == s && row.chosen == values[k]
            && (forall j :: 0 <= j < |values| ==>
                  !Less(TrainMetric(strategy, select, s, values[k]), TrainMetric(strategy, select, s, values[j])))
            && (forall j :: 0 <= j < k ==>
                  Less(TrainMetric(strategy, select, s, values[j]), TrainMetric(strategy, select, s, values[k])))
            && row.oos == Map((t: Trade) => t.r,
                              Filter(Evaluate(strategy, values[k], s.test), (x: Trade) => x.entryNs >= open + embargoNs))
  {
    hide Evaluate, TrainMetric, Curve, FirstMax, Less, DayOpenNs, Filter, EmbargoTest;
    var curve := Curve(strategy, select, s, values);
    k := FirstMax(curve, Less);
    ArgmaxIsFirst(curve);
    CurveIs(strategy, select, s, values);
    EmbargoIsFilter(Evaluate(strategy, values[k], s.test), DayOpenNs(s.test[0]), embargoNs);
  }

  /** A strategy is evaluated day by day. */
  lemma {:induction false} EvaluateDays(strategy: Strategy, v: real, a: seq<Day>, b: seq<Day>, d: Day)
    ensures Evaluate(strategy, v, a + b) == Evaluate(strategy, v, a) + Evaluate(strategy, v, b)
    ensures Evaluate(strategy, v, [d]) == strategy(v, d)
  {
    assert [d][1..] == [] && Evaluate(strategy, v, []) == [];
    if a == [] {
      assert a + b == b;
    } else {
      EvaluateDays(strategy, v, a[1..], b, d);
      assert (a + b)[1..] == a[1..] + b;
    }
  }

  ghost function Pooled(rows: seq<Row>): seq<real> {
    if rows == [] then [] else Pooled(rows[..|rows| - 1]) + rows[|rows| - 1].oos
  }

  /** The sessions a sweep considers: with reports to go by, only those that passed. */
  function Considered(calendar: seq<Day>, passes: Option<Day -> bool>): seq<Day> {
    if passes.Some? then Filter(calendar, passes.value) else calendar
  }

  /** The chosen value of every split and the pooled returns. A calendar too short for one split is not an
      error; without values the first split fails, as does a test window that a negative embargo left empty. */
  method WalkForwardSweep(calendar: seq<Day>, passes: Option<Day -> bool>, strategy: Strategy, values: seq<real>, scheme: Scheme,
                          trainSize: int, testSize: int, embargo: int, embargoNs: int, select: Selector)
    returns (r: Result<(seq<Row>, seq<real>)>)
    ensures var days := Considered(calendar, passes);
            Refusal(days, scheme, trainSize, testSize).Some? ==> r == Err(Refusal(days, scheme, trainSize, testSize).value)
    ensures var days := Considered(calendar, passes);
            r.Ok? ==>
              && Refusal(days, scheme, trainSize, testSize).None?
              && (forall i: nat :: i < |r.value.0| <==> Fits(|days|, trainSize, testSize, embargo, testSize, i))
              && (forall i :: 0 <= i < |r.value.0| ==>
                    var s := SplitAt(days, scheme, trainSize, testSize, embargo, testSize, i);
                    s.test != [] && values != [] && r.value.0[i] == RowOf(strategy, select, s, values, embargoNs))
              && r.value.1 == Pooled(r.value.0)
    ensures var days := Considered(calendar, passes);
            Refusal(days, scheme, trainSize, testSize).None? ==>
              (r.Err? <==> exists i: nat :: Fits(|days|, trainSize, testSize, embargo, testSize, i)
                             && (values == [] || SplitAt(days, scheme, trainSize, testSize, embargo, testSize, i).test == []))
    ensures var days := Considered(calendar, passes);
            Refusal(days, scheme, trainSize, testSize).None? && embargo >= 0 ==>
              (r.Err? <==> values == [] && Fits(|days|, trainSize, testSize, embargo, testSize, 0))
  {
    hide Boundary, SplitAt, Fits, RowOf, NonDecreasing, Distinct, EmbargoTest, Evaluate, Outcomes, DayOpenNs, Curve, FirstMax, Filter;
    var days := Considered(calendar, passes);
    var splits := WalkForwardSplits(days, scheme, trainSize, testSize, embargo, None);
    if splits.Err? { return Err(splits.error); }
    var rows: seq<Row>, oos := [], [];
    for i := 0 to |splits.value|
      invariant |rows| == i && oos == Pooled(rows)
      invariant forall j :: 0 <= j < i ==>
                  var s := splits.value[j];
                  s.test != [] && values != [] && rows[j] == RowOf(strategy, select, s, values, embargoNs)
    {
      var s := splits.value[i];
      assert Fits(|days|, trainSize, testSize, embargo, testSize, i);
      if embargo >= 0 {
        WindowsLie(days, scheme, trainSize, testSize, embargo, testSize, i);
      }
      if s.test == [] { return Err(EmptyTest); }
      var curve := TrainCurve(strategy, select, s, values);
      if values == [] {
        assert Fits(|days|, trainSize, testSize, embargo, testSize, 0) by { assert 0 < |splits.value|; }
        return Err(NoValues);
      }
      var best := FirstMax(curve, Less);
      var trades := EmbargoTest(Evaluate(strategy, values[best], s.test), DayOpenNs(s.test[0]), embargoNs);
      var row := Row(s, values[best], Outcomes(trades));
      RowIs(strategy, select, s, values, embargoNs, best);
      assert (rows + [row])[..|rows|] == rows;
      rows, oos := rows + [row], oos + Outcomes(trades);
    }
    return Ok((rows, oos));
  }

  method TrainCurve(strategy: Strategy, select: Selector, s: Split, values: seq<real>) returns (curve: seq<Metric>)
    requires s.test != []
    ensures curve == Curve(strategy, select, s, values)
  {
    curve := [];
    for i := 0 to |values|
      invariant curve == Curve(strategy, select, s, values[..i])
    {
      assert values[..i + 1][..i] == values[..i];
      curve := curve + [Score(strategy, select, s, values[i])];
    }
    assert values[..|values|] == values;
  }

  // ---------------------------------------------------------------- test data never influences the choice

  /** The two strategies agree, before day `open`, on the trades that exit before that day's open. */
  ghost predicate AgreeBefore(a: Strategy, b: Strategy, open: Day) {
    forall v, d :: d < open ==> PurgeTrain(a(v, d), DayOpenNs(open)) == PurgeTrain(b(v, d), DayOpenNs(open))
  }

  lemma AgreeOn(a: Strategy, b: Strategy, v: real, d: Day, open: Day)
    requires AgreeBefore(a, b, open) && d < open
    ensures PurgeTrain(a(v, d), DayOpenNs(open)) == PurgeTrain(b(v, d), DayOpenNs(open))
  {
  }

  lemma {:induction false} PurgedAgree(a: Strategy, b: Strategy, v: real, days: seq<Day>, open: Day)
    requires AgreeBefore(a, b, open) && forall d :: d in days ==> d < open
    ensures PurgeTrain(Evaluate(a, v, days), DayOpenNs(open)) == PurgeTrain(Evaluate(b, v, days), DayOpenNs(open))
  {
    hide PurgeTrain, DayOpenNs;
    if days != [] {
      forall d | d in days[1..] ensures d < open {
        assert d in days;
      }
      PurgeConcat(a(v, days[0]), Evaluate(a, v, days[1..]), DayOpenNs(open));
      PurgeConcat(b(v, days[0]), Evaluate(b, v, days[1..]), DayOpenNs(open));
      PurgedAgree(a, b, v, days[1..], open);
      assert days[0] in days;
      AgreeOn(a, b, v, days[0], open);
    }
  }

  lemma {:induction false} CurvesAgree(a: Strategy, b: Strategy, select: Selector, s: Split, values: seq<real>)
    requires s.test != [] && AgreeBefore(a, b, s.test[0]) && forall d :: d in s.train ==> d < s.test[0]
    ensures Curve(a, select, s, values) == Curve(b, select, s, values)
  {
    if values != [] {
      var n := |values| - 1;
      CurvesAgree(a, b, select, s, values[..n]);
      PurgedAgree(a, b, values[n], s.train, s.test[0]);
    }
  }

  /** Whatever happens on or after a split's first test day, and whatever exits at or after its open, the
      value chosen for that split stays the same. */
  lemma ChoiceIsCausal(a: Strategy, b: Strategy, select: Selector, days: seq<Day>, scheme: Scheme, trainSize: int,
                       testSize: int, embargo: int, values: seq<real>, i: nat)
    requires Increasing(days) && trainSize >= 1 && testSize >= 1 && embargo >= 0 && !scheme.Unknown? && values != []
    requires Fits(|days|, trainSize, testSize, embargo, testSize, i)
    requires var s := SplitAt(days, scheme, trainSize, testSize, embargo, testSize, i);
             s.test != [] ==> AgreeBefore(a, b, s.test[0])
    ensures var s := SplitAt(days, scheme, trainSize, testSize, embargo, testSize, i);
            s.test != [] && Chosen(a, select, s, values) == Chosen(b, select, s, values)
  {
    var s := SplitAt(days, scheme, trainSize, testSize, embargo, testSize, i);
    NoLeak(days, scheme, trainSize, testSize, embargo, testSize, i);
    WindowsLie(days, scheme, trainSize, testSize, embargo, testSize, i);
    assert s.test[0] in s.test;
    CurvesAgree(a, b, select, s, values);
  }
}

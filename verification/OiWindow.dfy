/**
 * Trailing open interest of one strike (orderflow_engine/chain/state.py): a deque pruned on every
 * update, from which the change over a window is read as if the whole session were still there.
 */
module ChainState {
  import opened Seqs

  const NS_PER_S: int := 1_000_000_000

  datatype Obs = Obs(ts: int, oi: int)

  ghost predicate Ordered(h: seq<Obs>) {
    forall i, j :: 0 <= i < j < |h| ==> h[i].ts <= h[j].ts
  }

  /** Open interest as of `target`: the last observation at or before it, or the first one when the
      session starts later. */
  function AsOf(h: seq<Obs>, target: int): int
    requires h != []
  {
    var n := |h| - 1;
    if h[n].ts <= target || n == 0 then h[n].oi else AsOf(h[..n], target)
  }

  lemma {:induction false} AsOfLast(h: seq<Obs>, target: int, n: nat)
    requires n < |h| && (h[n].ts <= target || n == 0) && forall i :: n < i < |h| ==> h[i].ts > target
    ensures AsOf(h, target) == h[n].oi
  {
    if n < |h| - 1 {
      AsOfLast(h[..|h| - 1], target, n);
    }
  }

  /** A history cut at an observation at or before `target` answers the same. */
  lemma {:induction false} AsOfSuffix(h: seq<Obs>, k: nat, target: int)
    requires k < |h| && h[k].ts <= target
    ensures AsOf(h[k..], target) == AsOf(h, target)
  {
    var n := |h| - 1;
    if k < n && h[n].ts > target {
      AsOfSuffix(h[..n], k, target);
      assert h[k..][..n - k] == h[..n][k..];
    }
  }

  /** The program's scan: the last observation of the leading run at or before `target`. */
  function Scan(h: seq<Obs>, target: int, base: int): int {
    if h == [] || h[0].ts > target then base else Scan(h[1..], target, h[0].oi)
  }

  lemma {:induction false} ScanIsAsOf(h: seq<Obs>, k: nat, target: int)
    requires Ordered(h) && k < |h| && (h[k].ts <= target || k == 0)
    ensures Scan(h[k + 1..], target, h[k].oi) == AsOf(h, target)
    decreases |h| - k
  {
    if k + 1 == |h| || h[k + 1].ts > target {
      AsOfLast(h, target, k);
    } else {
      ScanIsAsOf(h, k + 1, target);
    }
  }

  // ---------------------------------------------------------------- pruning

  /** Drops observations older than the window, keeping one older anchor. */
  function Prune(h: seq<Obs>, oldest: int): (r: seq<Obs>)
    ensures h != [] ==> r != []
  {
    if |h| > 2 && h[1].ts < oldest then Prune(h[1..], oldest) else h
  }

  /** `r` is what is left of `h` after dropping from the front. */
  ghost predicate EndsWith(h: seq<Obs>, r: seq<Obs>) {
    |r| <= |h| && r == h[|h| - |r|..]
  }

  lemma {:induction false} PruneIsSuffix(h: seq<Obs>, oldest: int)
    ensures var r := Prune(h, oldest); EndsWith(h, r) && (|r| < |h| ==> r != [] && r[0].ts < oldest)
  {
    if |h| > 2 && h[1].ts < oldest {
      PruneIsSuffix(h[1..], oldest);
      assert Prune(h[1..], oldest) != [];
    }
  }

  /** What is left of `full`: a suffix that starts before the largest window, if anything was dropped. */
  ghost predicate Cut(full: seq<Obs>, hist: seq<Obs>, maxWindow: int) {
    && EndsWith(full, hist)
    && (full != [] ==> hist != [])
    && (|hist| < |full| ==> hist[0].ts < full[|full| - 1].ts - maxWindow)
  }

  lemma AppendKeepsCut(full: seq<Obs>, hist: seq<Obs>, o: Obs, maxWindow: int)
    requires Cut(full, hist, maxWindow) && (full != [] ==> full[|full| - 1].ts <= o.ts)
    ensures Cut(full + [o], Prune(hist + [o], o.ts - maxWindow), maxWindow)
  {
    hide Prune, EndsWith;
    var r := Prune(hist + [o], o.ts - maxWindow);
    PruneIsSuffix(hist + [o], o.ts - maxWindow);
    EndsSnoc(full, hist, o);
    EndsTwice(full + [o], hist + [o], r);
    if |r| == |hist| + 1 && |hist| < |full| {
      EndsWhole(hist + [o], r);
    }
  }

  lemma EndsSnoc(h: seq<Obs>, r: seq<Obs>, o: Obs)
    requires EndsWith(h, r)
    ensures EndsWith(h + [o], r + [o])
  {
  }

  lemma EndsTwice(h: seq<Obs>, r: seq<Obs>, t: seq<Obs>)
    requires EndsWith(h, r) && EndsWith(r, t)
    ensures EndsWith(h, t) && |t| <= |r| <= |h|
  {
  }

  lemma EndsWhole(h: seq<Obs>, r: seq<Obs>)
    requires EndsWith(h, r) && |r| == |h|
    ensures r == h
  {
  }

  /** The history left after recording `obs` one by one. */
  function Recorded(obs: seq<Obs>, maxWindow: int): seq<Obs> {
    if obs == [] then []
    else
      var n := |obs| - 1;
      Prune(Recorded(obs[..n], maxWindow) + [obs[n]], obs[n].ts - maxWindow)
  }

  lemma RecordedSnoc(obs: seq<Obs>, o: Obs, maxWindow: int)
    ensures Recorded(obs + [o], maxWindow) == Prune(Recorded(obs, maxWindow) + [o], o.ts - maxWindow)
  {
    hide Prune;
    assert (obs + [o])[..|obs|] == obs;
  }

  lemma OrderedFront(obs: seq<Obs>)
    requires Ordered(obs) && obs != []
    ensures Ordered(obs[..|obs| - 1]) && (|obs| > 1 ==> obs[|obs| - 2].ts <= obs[|obs| - 1].ts)
  {
  }

  lemma {:induction false} RecordedIsCut(obs: seq<Obs>, maxWindow: int)
    requires Ordered(obs)
    ensures Cut(obs, Recorded(obs, maxWindow), maxWindow)
  {
    hide *;
    if obs == [] {
      NothingCut(maxWindow);
    } else {
      var front, o := obs[..|obs| - 1], obs[|obs| - 1];
      OrderedFront(obs);
      RecordedIsCut(front, maxWindow);
      AppendKeepsCut(front, Recorded(front, maxWindow), o, maxWindow);
      RecordedSnoc(front, o, maxWindow);
      assert front + [o] == obs;
    }
  }

  lemma NothingCut(maxWindow: int)
    ensures Cut([], Recorded([], maxWindow), maxWindow)
  {
  }

  /** The deque pruned to `maxWindow` answers `window` at `ts` like the full history. */
  ghost predicate Answers(obs: seq<Obs>, maxWindow: int, ts: int, window: int) {
    var h := Recorded(obs, maxWindow);
    obs != [] && h != [] && Scan(h, ts - window, h[0].oi) == AsOf(obs, ts - window)
  }

  /** A history in time order, queried at or after its last observation. */
  ghost predicate Queried(obs: seq<Obs>, ts: int) {
    obs != [] && Ordered(obs) && obs[|obs| - 1].ts <= ts
  }

  /** The widest window the pruned deque still answers: the anchor is older than the largest window by at
      least one nanosecond. */
  function Reach(maxWindow: int): int {
    if maxWindow < 0 then 0 else maxWindow + 1
  }

  /** The pruned deque answers like the full history on every session if and only if the window is at most
      one nanosecond wider than the largest configured one. */
  lemma AnswersIff(maxWindow: int, window: int)
    ensures (forall obs, ts :: Queried(obs, ts) ==> Answers(obs, maxWindow, ts, window)) <==> window <= Reach(maxWindow)
  {
    hide Answers, Queried;
    if window <= Reach(maxWindow) {
      forall obs, ts | Queried(obs, ts) ensures Answers(obs, maxWindow, ts, window) {
        AnswersWithin(obs, maxWindow, ts, window);
      }
    } else {
      WiderDiffers(maxWindow, window);
    }
  }

  lemma AnswersWithin(obs: seq<Obs>, maxWindow: int, ts: int, window: int)
    requires Queried(obs, ts) && window <= Reach(maxWindow)
    ensures Answers(obs, maxWindow, ts, window)
  {
    hide Recorded, Scan, AsOf, Ordered;
    RecordedIsCut(obs, maxWindow);
    CutAnswers(obs, Recorded(obs, maxWindow), maxWindow, ts - window);
  }

  /** In particular for every window up to the largest configured one. */
  lemma PrunedAnswersLikeFull(obs: seq<Obs>, maxWindow: int, ts: int, window: int)
    requires obs != [] && Ordered(obs) && obs[|obs| - 1].ts <= ts && window <= maxWindow
    ensures Recorded(obs, maxWindow) != []
    ensures var h := Recorded(obs, maxWindow); Scan(h, ts - window, h[0].oi) == AsOf(obs, ts - window)
  {
    hide Recorded, Scan, AsOf, Ordered;
    AnswersWithin(obs, maxWindow, ts, window);
  }

  lemma CutAnswers(obs: seq<Obs>, h: seq<Obs>, maxWindow: int, target: int)
    requires obs != [] && Ordered(obs) && Cut(obs, h, maxWindow)
    requires obs[|obs| - 1].ts - Reach(maxWindow) <= target
    ensures Scan(h, target, h[0].oi) == AsOf(obs, target)
  {
    hide AsOf, Scan;
    var k := |obs| - |h|;
    assert h == obs[k..];
    assert Ordered(h);
    ScanFromStart(h, target);
    if k > 0 {
      AsOfSuffix(obs, k, target);
    }
  }

  lemma ScanFromStart(h: seq<Obs>, target: int)
    requires h != [] && Ordered(h)
    ensures Scan(h, target, h[0].oi) == AsOf(h, target)
  {
    hide AsOf;
    ScanIsAsOf(h, 0, target);
    if |h| > 1 {
      assert h[0].ts <= h[1].ts;
    }
  }

  // ---------------------------------------------------------------- the strike object

  function Multiple(w: int): int {
    w * NS_PER_S
  }

  /** `sorted(int(w) * 1_000_000_000 for w in windows_s)` */
  function SortedNs(windows: seq<int>): (r: seq<int>)
    ensures |r| == |windows|
  {
    Sort(Map(Multiple, windows), AtMost)
  }

  /** The windows in nanoseconds, ascending. */
  lemma WindowsInNs(windows: seq<int>)
    ensures multiset(SortedNs(windows)) == multiset(Map((w: int) => w * 1_000_000_000, windows))
    ensures NonDecreasing(SortedNs(windows))
  {
    assert Map(Multiple, windows) == Map((w: int) => w * 1_000_000_000, windows);
    SortSorted(Map(Multiple, windows), AtMost);
    var s := SortedNs(windows);
    forall i, j | 0 <= i < j < |s| ensures s[i] <= s[j] {
      assert AtMost(s[i], s[j]);
    }
  }

  class StrikeState {
    const windowsNs: seq<int>
    const maxWindow: int
    var oi: int
    var volume: int
    var ltp: Option<real>
    var firstTs: Option<int>
    var lastTs: Option<int>
    var hist: seq<Obs>
    ghost var full: seq<Obs>      // every observation, nothing pruned

    ghost predicate Valid()
      reads this
    {
      && hist == Recorded(full, maxWindow)
      && oi == if full == [] then 0 else full[|full| - 1].oi
    }

    constructor (windows: seq<int>)
      ensures Valid() && full == [] && windowsNs == SortedNs(windows) && firstTs == lastTs == None
      ensures maxWindow == if windows == [] then 0 else windowsNs[|windows| - 1]
    {
      windowsNs := SortedNs(windows);
      maxWindow := if windows == [] then 0 else SortedNs(windows)[|windows| - 1];
      oi, volume, ltp, firstTs, lastTs, hist, full := 0, 0, None, None, None, [], [];
    }

    method Update(ts: int, newOi: Option<int>, newVolume: Option<int>, newLtp: Option<real>)
      requires Valid()
      modifies this
      ensures Valid()
      ensures full == old(full) + if newOi.Some? then [Obs(ts, newOi.value)] else []
      ensures firstTs == Some(old(firstTs).GetOr(ts)) && lastTs == Some(ts)
      ensures volume == newVolume.GetOr(old(volume)) && ltp == if newLtp.Some? then newLtp else old(ltp)
    {
      hide Recorded, Prune;
      if firstTs.None? {
        firstTs := Some(ts);
      }
      lastTs := Some(ts);
      if newOi.Some? {
        oi := newOi.value;
        RecordedSnoc(full, Obs(ts, oi), maxWindow);
        hist := PruneDeque(hist + [Obs(ts, oi)], ts - maxWindow);
        full := full + [Obs(ts, oi)];
      }
      if newVolume.Some? {
        volume := newVolume.value;
      }
      if newLtp.Some? {
        ltp := newLtp;
      }
    }

    method DeltaOi(ts: int, windowNs: int) returns (d: int)
      requires Valid()
      ensures full == [] ==> d == 0
      ensures Queried(full, ts) && windowNs <= Reach(maxWindow) ==>
                d == full[|full| - 1].oi - AsOf(full, ts - windowNs)
    {
      hide Recorded, AsOf;
      if hist == [] {
        if full != [] {
          RecordedNonempty(full, maxWindow);
        }
        return 0;
      }
      var target := ts - windowNs;
      var base := ScanDeque(hist, target);
      d := oi - base;
      if full == [] {
        NothingRecorded(maxWindow);
      } else if Queried(full, ts) && windowNs <= Reach(maxWindow) {
        AnswersWithin(full, maxWindow, ts, windowNs);
      }
    }

    /** The window columns of a snapshot row: labels in configured order, windows in sorted order. */
    method SnapshotDeltas(windows: seq<int>, ts: int) returns (row: seq<(int, int)>)
      requires Valid() && maxWindow == if windows == [] then 0 else SortedNs(windows)[|windows| - 1]
      ensures |row| == |windows| && forall i :: 0 <= i < |row| ==> row[i].0 == windows[i]
      ensures full != [] && Ordered(full) && full[|full| - 1].ts <= ts ==>
                forall i :: 0 <= i < |row| ==>
                  row[i].1 == full[|full| - 1].oi - AsOf(full, ts - SortedNs(windows)[i])
    {
      hide Recorded, AsOf, SortedNs, Ordered;
      var ns := SortedNs(windows);
      WindowsAtMostLargest(windows);
      row := [];
      for i := 0 to |windows|
        invariant |row| == i && forall j :: 0 <= j < i ==> row[j].0 == windows[j]
        invariant full != [] && Ordered(full) && full[|full| - 1].ts <= ts ==>
                    forall j :: 0 <= j < i ==> row[j].1 == full[|full| - 1].oi - AsOf(full, ts - ns[j])
      {
        var d := DeltaOi(ts, ns[i]);
        row := row + [(windows[i], d)];
      }
    }
  }

  method PruneDeque(h: seq<Obs>, oldest: int) returns (r: seq<Obs>)
    ensures r == Prune(h, oldest)
  {
    r := h;
    while |r| > 2 && r[1].ts < oldest
      invariant Prune(r, oldest) == Prune(h, oldest)
      decreases |r|
    {
      r := r[1..];
    }
  }

  method ScanDeque(h: seq<Obs>, target: int) returns (base: int)
    requires h != []
    ensures base == Scan(h, target, h[0].oi)
  {
    base := h[0].oi;
    var i := 0;
    while i < |h| && h[i].ts <= target
      invariant 0 <= i <= |h|
      invariant Scan(h[i..], target, base) == Scan(h, target, h[0].oi)
    {
      assert h[i..][1..] == h[i + 1..];
      base := h[i].oi;
      i := i + 1;
    }
  }

  lemma NothingRecorded(maxWindow: int)
    ensures Recorded([], maxWindow) == []
  {
  }

  lemma RecordedNonempty(obs: seq<Obs>, maxWindow: int)
    requires obs != []
    ensures Recorded(obs, maxWindow) != []
  {
  }

  lemma WindowsAtMostLargest(windows: seq<int>)
    ensures forall i :: 0 <= i < |windows| ==> SortedNs(windows)[i] <= SortedNs(windows)[|windows| - 1]
  {
    SortSorted(Map(Multiple, windows), AtMost);
    forall i | 0 <= i < |windows| ensures SortedNs(windows)[i] <= SortedNs(windows)[|windows| - 1] {
      assert i < |windows| - 1 ==> AtMost(SortedNs(windows)[i], SortedNs(windows)[|windows| - 1]);
    }
  }

  /** Three observations, the first of which is dropped by the third. */
  function WideSession(maxWindow: int): seq<Obs> {
    [Obs(-1, 1), Obs(0, 2), Obs(Reach(maxWindow), 3)]
  }

  lemma WideRecorded(maxWindow: int)
    ensures Recorded(WideSession(maxWindow), maxWindow) == WideSession(maxWindow)[1..]
  {
    var full := WideSession(maxWindow);
    assert full[..2] == [full[0], full[1]] && full[..2][..1] == [full[0]] && full[..1][..0] == [];
    assert Recorded(full[..1], maxWindow) == [full[0]] by {
      assert [] + [full[0]] == [full[0]];
    }
    assert Recorded(full[..2], maxWindow) == full[..2] by {
      assert [full[0]] + [full[1]] == full[..2];
    }
    assert full[..2] + [full[2]] == full && |full[1..]| == 2;
    var oldest := full[2].ts - maxWindow;
    assert Recorded(full, maxWindow) == Prune(full, oldest);
    assert Prune(full[1..], oldest) == full[1..];
  }

  /** Any wider window is answered otherwise on this session. */
  lemma WiderDiffers(maxWindow: int, window: int)
    requires window > Reach(maxWindow)
    ensures Queried(WideSession(maxWindow), Reach(maxWindow))
    ensures !Answers(WideSession(maxWindow), maxWindow, Reach(maxWindow), window)
  {
    hide Recorded, Prune;
    var full, target := WideSession(maxWindow), Reach(maxWindow) - window;
    WideRecorded(maxWindow);
    AsOfLast(full, target, 0);
    ScanFromStart(full[1..], target);
    AsOfLast(full[1..], target, 0);
  }

  /** Every snapshot column shows the window its label names if and only if the windows are configured
      in ascending order. */
  lemma LabelsMatchWindows(windows: seq<int>)
    ensures (forall i :: 0 <= i < |windows| ==> SortedNs(windows)[i] == Multiple(windows[i])) <==> NonDecreasing(windows)
  {
    var raw := Map(Multiple, windows);
    SortSorted(raw, AtMost);
    if NonDecreasing(windows) {
      forall i, j | 0 <= i < j < |raw| ensures AtMost(raw[i], raw[j]) {
        assert windows[i] <= windows[j];
      }
      SortOfSorted(raw, AtMost);
    } else {
      var i, j :| 0 <= i < j < |windows| && windows[i] > windows[j];
      assert AtMost(SortedNs(windows)[i], SortedNs(windows)[j]);
    }
  }

  /** With windows configured as 300 s and 60 s the column labelled 300 s shows the 60 s change, which
      is another number on a session with observations at 0 s, 100 s and 300 s. */
  lemma UnsortedWindowsMislabel()
    ensures SortedNs([300, 60])[0] == Multiple(60)
    ensures var full := [Obs(0, 1), Obs(Multiple(100), 2), Obs(Multiple(300), 3)];
            Ordered(full) && AsOf(full, Multiple(300) - Multiple(60)) != AsOf(full, Multiple(300) - Multiple(300))
  {
    SortPair(Multiple(300), Multiple(60));
    assert Map(Multiple, [300, 60]) == [Multiple(300), Multiple(60)];
    var full := [Obs(0, 1), Obs(Multiple(100), 2), Obs(Multiple(300), 3)];
    AsOfLast(full, Multiple(240), 1);
    AsOfLast(full, 0, 0);
  }

  lemma SortPair(x: int, y: int)
    requires y < x
    ensures Sort([x, y], AtMost) == [y, x]
  {
    assert [x, y][1..] == [y];
    assert Sort([y], AtMost) == [y];
    assert [y][1..] == [];
  }
}

/**
 * Replaying a recorded day (orderflow_engine/replayer/engine.py).
 *
 * A day is a list of parquet files; a file is a list of row groups.  The engine cuts the day into
 * time slices, reads from every file only the row groups a slice needs, merges the slice and
 * forgets it.  The simple form it replaces sorts every file whole and merges them once.
 */
module Replay {
  import opened Seqs
  import opened Merging

  const SLICE_TARGET_ROWS: nat := 150_000
  const DEPTH_LTT_SENTINEL: int := 0x100_0000_0000
  const EVENT_LTT_SENTINEL: int := 0x4000_0000_0000_0000

  datatype Kind = Tick | Depth | Event

  /** The columns the engine looks at; `rest` stands for the ones it only carries along. */
  datatype Row = Row(ts: Option<int>, ltt: Option<int>, sid: Option<int>, rest: string)

  datatype File = File(kind: Kind, groups: seq<seq<Row>>) {
    function Rows(): seq<Row> {
      Flatten(groups)
    }
  }

  /** A file on disk: one that cannot be opened is skipped. */
  datatype SourceFile = Unreadable | Readable(file: File)

  datatype Key = Key(ts: int, ltt: int, rank: int, sid: int, idx: int)

  /** `file` records which file the row came from; no comparison in the engine looks at it. */
  datatype Emitted = Emitted(key: Key, kind: Kind, ts: int, sid: Option<int>, row: Row, file: nat)

  // ------------------------------------------------------------------ the key

  /** Python's order on the five-field key tuples. */
  predicate KeyLess(a: Key, b: Key) {
    if a.ts != b.ts then a.ts < b.ts
    else if a.ltt != b.ltt then a.ltt < b.ltt
    else if a.rank != b.rank then a.rank < b.rank
    else if a.sid != b.sid then a.sid < b.sid
    else a.idx < b.idx
  }

  predicate KeyBefore(a: Emitted, b: Emitted) {
    KeyLess(a.key, b.key)
  }

  predicate KeyAtMost(a: Emitted, b: Emitted) {
    !KeyLess(b.key, a.key)
  }

  function FileNo(e: Emitted): int {
    e.file
  }

  /** The order of the whole day: by key, and rows of equal key in file order. */
  ghost predicate InOrder(s: seq<Emitted>) {
    Ascending(KeyBefore, FileNo, s)
  }

  lemma KeyOrder()
    ensures StrictWeakOrder(KeyBefore)
  {
  }

  function TsOf(row: Row): int {
    row.ts.GetOr(0)
  }

  /** The event built from row `i` of file `f`. */
  function EventOf(f: nat, kind: Kind, row: Row, i: int): Emitted {
    var ts := TsOf(row);
    var sid := row.sid.GetOr(-1);
    match kind
    case Tick => Emitted(Key(ts, row.ltt.GetOr(-1), 0, sid, i), Tick, ts, Some(sid), row, f)
    case Depth =>
      Emitted(Key(ts, DEPTH_LTT_SENTINEL, 1, sid, i), Depth, ts, if sid < 0 then None else Some(sid), row, f)
    case Event =>
      Emitted(Key(ts, EVENT_LTT_SENTINEL, 2, sid, i), Event, ts, if sid < 0 then None else Some(sid), row, f)
  }

  /** At one instant ticks come before depth rows and depth rows before events, provided last-trade
      times stay below the sentinels, as 31-bit epoch seconds do. */
  lemma KindOrderAtOneInstant(f: nat, g: nat, k: Kind, l: Kind, r: Row, s: Row, i: int, j: int)
    requires TsOf(r) == TsOf(s)
    requires (k == Tick && l != Tick) || (k == Depth && l == Event)
    requires r.ltt.GetOr(-1) <= DEPTH_LTT_SENTINEL
    ensures KeyBefore(EventOf(f, k, r, i), EventOf(g, l, s, j))
  {
    assert EventOf(f, k, r, i).key.rank < EventOf(g, l, s, j).key.rank;
  }

  // ------------------------------------------------------ the order, on the columns themselves

  /** Row `i` of a file of kind `k` goes before row `j` of a file of kind `l`: by timestamp, a missing one
      being 0; at one timestamp ticks by last-trade time, a missing one being -1, before depth rows, before
      events; then by security, a missing one being -1; then by place in the file.  Only a last-trade time
      beyond 2^40 or 2^62 would put a tick after a depth row or an event. */
  predicate RowBefore(k: Kind, r: Row, i: int, l: Kind, s: Row, j: int) {
    var t, u := if r.ts.Some? then r.ts.value else 0, if s.ts.Some? then s.ts.value else 0;
    var a, b := if r.ltt.Some? then r.ltt.value else -1, if s.ltt.Some? then s.ltt.value else -1;
    var x, y := if r.sid.Some? then r.sid.value else -1, if s.sid.Some? then s.sid.value else -1;
    var bySid := x < y || (x == y && i < j);
    t < u || (t == u &&
      match (k, l)
      case (Tick, Tick) => a < b || (a == b && bySid)
      case (Tick, Depth) => a <= 0x100_0000_0000
      case (Tick, Event) => a <= 0x4000_0000_0000_0000
      case (Depth, Tick) => b > 0x100_0000_0000
      case (Depth, Depth) => bySid
      case (Depth, Event) => true
      case (Event, Tick) => b > 0x4000_0000_0000_0000
      case (Event, Depth) => false
      case (Event, Event) => bySid)
  }

  lemma KeyIsColumns(f: nat, g: nat, k: Kind, l: Kind, r: Row, s: Row, i: int, j: int)
    ensures KeyBefore(EventOf(f, k, r, i), EventOf(g, l, s, j)) <==> RowBefore(k, r, i, l, s, j)
  {
  }

  /** And what is delivered is the row itself, under its own kind, timestamp and security. */
  lemma EventCarries(f: nat, k: Kind, r: Row, i: int)
    ensures var e := EventOf(f, k, r, i);
            && e.row == r && e.kind == k && e.ts == (if r.ts.Some? then r.ts.value else 0)
            && (k == Tick ==> e.sid == if r.sid.Some? then r.sid else Some(-1))
            && (k != Tick ==> e.sid == if r.sid.Some? && r.sid.value >= 0 then r.sid else None)
  {
  }

  // ------------------------------------------------------ rows to sorted events

  function EventsAt(f: nat, kind: Kind, rows: seq<Row>, idx: seq<int>): (r: seq<Emitted>)
    requires |rows| == |idx|
    ensures |r| == |rows|
  {
    seq(|rows|, j requires 0 <= j < |rows| => EventOf(f, kind, rows[j], idx[j]))
  }

  function SortedEvents(f: nat, kind: Kind, rows: seq<Row>, idx: seq<int>): seq<Emitted>
    requires |rows| == |idx|
  {
    Sort(EventsAt(f, kind, rows, idx), KeyAtMost)
  }

  function Enumeration(n: nat): (r: seq<int>)
    ensures |r| == n
  {
    seq(n, j => j)
  }

  method RowsToEvents(f: nat, kind: Kind, rows: seq<Row>, globalIdx: Option<seq<int>>) returns (out: seq<Emitted>)
    requires globalIdx.Some? ==> |globalIdx.value| == |rows|
    ensures out == SortedEvents(f, kind, rows, globalIdx.GetOr(Enumeration(|rows|)))
  {
    out := [];
    ghost var raw := EventsAt(f, kind, rows, globalIdx.GetOr(Enumeration(|rows|)));
    for j := 0 to |rows|
      invariant out == raw[..j]
    {
      var i := if globalIdx.Some? then globalIdx.value[j] else j;
      out := out + [EventOf(f, kind, rows[j], i)];
    }
    assert raw[..|rows|] == raw;
    out := Sort(out, KeyAtMost);
  }

  /** Sorting one file's events by key alone leaves them strictly ascending: row indices are distinct. */
  lemma SortedEventsInOrder(f: nat, kind: Kind, rows: seq<Row>, idx: seq<int>)
    requires |rows| == |idx| && Increasing(idx)
    ensures InOrder(SortedEvents(f, kind, rows, idx))
    ensures forall e :: e in SortedEvents(f, kind, rows, idx) <==> e in EventsAt(f, kind, rows, idx)
  {
    var raw := EventsAt(f, kind, rows, idx);
    KeyOrder();
    forall i, j | 0 <= i < j < |raw| ensures KeyBefore(raw[i], raw[j]) || KeyBefore(raw[j], raw[i]) {
      assert raw[i].key.idx == idx[i] && raw[j].key.idx == idx[j];
    }
    SortDistinct(KeyBefore, FileNo, raw, KeyAtMost);
    forall e ensures e in SortedEvents(f, kind, rows, idx) <==> e in raw {
      SortMember(raw, KeyAtMost, e);
    }
  }

  // ------------------------------------------------------ row-group-pruned reads

  /** Keeps the elements whose flag is set: `table.filter`. */
  function Pick<T>(s: seq<T>, keep: seq<bool>): (r: seq<T>)
    requires |s| == |keep|
  {
    if s == [] then []
    else
      var n := |s| - 1;
      Pick(s[..n], keep[..n]) + if keep[n] then [s[n]] else []
  }

  /** The positions of the set flags: `np.nonzero`. */
  function Nonzero(keep: seq<bool>): (r: seq<int>)
    ensures forall j :: 0 <= j < |r| ==> 0 <= r[j] < |keep| && keep[r[j]]
    ensures Increasing(r)
  {
    if keep == [] then []
    else
      var n := |keep| - 1;
      Nonzero(keep[..n]) + if keep[n] then [n] else []
  }

  lemma {:induction false} NonzeroComplete(keep: seq<bool>, i: nat)
    requires i < |keep| && keep[i]
    ensures i in Nonzero(keep)
  {
    if i < |keep| - 1 {
      NonzeroComplete(keep[..|keep| - 1], i);
    }
  }

  function RowsAt<T>(rows: seq<T>, idx: seq<int>): (r: seq<T>)
    requires forall j :: 0 <= j < |idx| ==> 0 <= idx[j] < |rows|
    ensures |r| == |idx| && forall j :: 0 <= j < |idx| ==> r[j] == rows[idx[j]]
  {
    seq(|idx|, j requires 0 <= j < |idx| => rows[idx[j]])
  }

  lemma {:induction false} PickIsNonzero<T>(s: seq<T>, keep: seq<bool>)
    requires |s| == |keep|
    ensures Pick(s, keep) == RowsAt(s, Nonzero(keep))
  {
    if s != [] {
      var n := |s| - 1;
      PickIsNonzero(s[..n], keep[..n]);
      assert RowsAt(s[..n], Nonzero(keep[..n])) == RowsAt(s, Nonzero(keep[..n]));
    }
  }

  lemma {:induction false} PickSplit<T>(s: seq<T>, keep: seq<bool>, a: nat)
    requires |s| == |keep| && a <= |s|
    ensures Pick(s, keep) == Pick(s[..a], keep[..a]) + Pick(s[a..], keep[a..])
  {
    if a == |s| {
      assert s[..a] == s && keep[..a] == keep;
    } else {
      var n := |s| - 1;
      PickSplit(s[..n], keep[..n], a);
      assert s[..n][..a] == s[..a] && keep[..n][..a] == keep[..a];
      assert s[a..][..n - a] == s[..n][a..] && keep[a..][..n - a] == keep[..n][a..];
      Associative(Pick(s[..a], keep[..a]), Pick(s[..n][a..], keep[..n][a..]), if keep[n] then [s[n]] else []);
    }
  }

  lemma {:induction false} PickNone<T>(s: seq<T>, keep: seq<bool>)
    requires |s| == |keep| && forall i :: 0 <= i < |keep| ==> !keep[i]
    ensures Pick(s, keep) == []
  {
    if s != [] {
      PickNone(s[..|s| - 1], keep[..|s| - 1]);
    }
  }

  /** Running totals of the row-group sizes: where each group ends in the file. */
  function GroupEnds(groups: seq<seq<Row>>): (r: seq<int>)
    ensures |r| == |groups|
    ensures forall i :: 0 <= i < |groups| ==> r[i] == |Flatten(groups[..i + 1])|
  {
    seq(|groups|, i requires 0 <= i < |groups| => |Flatten(groups[..i + 1])|)
  }

  /** `np.searchsorted(ends, g, side="right")` on a sorted array. */
  function SearchRight(ends: seq<int>, g: int): (r: nat)
    ensures r <= |ends|
    ensures forall i :: 0 <= i < r ==> ends[i] <= g
    ensures r < |ends| ==> g < ends[r]
  {
    if ends == [] || g < ends[0] then 0 else 1 + SearchRight(ends[1..], g)
  }

  function TsColumn(file: File): (r: seq<int>)
    ensures |r| == |file.Rows()|
  {
    Map(TsOf, file.Rows())
  }

  function Mask(ts: seq<int>, lo: int, hi: int): (r: seq<bool>)
    ensures |r| == |ts|
  {
    seq(|ts|, i requires 0 <= i < |ts| => lo <= ts[i] < hi)
  }

  /** What a slice read of file `f` must deliver: the rows with lo <= ts < hi, each with its index in
      the file, sorted. */
  function SliceOf(f: nat, file: File, lo: int, hi: int): seq<Emitted> {
    var rows := file.Rows();
    var idx := Nonzero(Mask(TsColumn(file), lo, hi));
    SortedEvents(f, file.kind, RowsAt(rows, idx), idx)
  }

  /** Row group `k` holds row number `row` of the file. */
  ghost predicate Holds(groups: seq<seq<Row>>, k: int, row: int) {
    0 <= k < |groups| && |Flatten(groups[..k])| <= row < |Flatten(groups[..k + 1])|
  }

  /** The read `r` takes groups `first` to `last` and no other, which hold rows `g` and `h`. */
  ghost predicate Reads(groups: seq<seq<Row>>, first: int, last: int, g: int, h: int, r: (int, seq<Row>)) {
    && Holds(groups, first, g) && Holds(groups, last, h) && first <= last
    && r.0 == |Flatten(groups[..first])| && r.1 == Flatten(groups[first..last + 1])
  }

  /** Reads the contiguous row groups that cover rows `g` to `h`: the offset of the first row read,
      and the rows. */
  function ReadSpan(groups: seq<seq<Row>>, g: int, h: int): (r: (int, seq<Row>))
    requires 0 <= g <= h < |Flatten(groups)|
    ensures 0 <= r.0 <= g && h < r.0 + |r.1| <= |Flatten(groups)|
    ensures r.1 == Flatten(groups)[r.0..r.0 + |r.1|]
    ensures exists first, last :: Reads(groups, first, last, g, h, r)
  {
    var ends := GroupEnds(groups);
    var first, last := SearchRight(ends, g), SearchRight(ends, h);
    GroupSpan(groups, first, last, g, h);
    var start := if first == 0 then 0 else ends[first - 1];
    var r := (start, Flatten(groups[first..last + 1]));
    NothingFlat<Row>();
    assert Reads(groups, first, last, g, h, r);
    r
  }

  lemma GroupSpan(groups: seq<seq<Row>>, first: nat, last: nat, g: int, h: int)
    requires 0 <= g <= h < |Flatten(groups)|
    requires first == SearchRight(GroupEnds(groups), g) && last == SearchRight(GroupEnds(groups), h)
    ensures first <= last < |groups|
    ensures |Flatten(groups[..first])| <= g
    ensures h < |Flatten(groups[..first])| + |Flatten(groups[first..last + 1])|
    ensures first > 0 ==> GroupEnds(groups)[first - 1] == |Flatten(groups[..first])|
    ensures Holds(groups, first, g) && Holds(groups, last, h)
    ensures Flatten(groups) == Flatten(groups[..first]) + Flatten(groups[first..last + 1]) + Flatten(groups[last + 1..])
  {
    hide *;
    SearchInside(groups, h);
    SearchMonotone(GroupEnds(groups), g, h);
    HoldsFound(groups, first, g);
    HoldsFound(groups, last, h);
    FlatThree(groups, first, last + 1);
    FlatCut(groups, first, last + 1);
    HoldsEnds(groups, first, g);
    HoldsEnds(groups, last, h);
  }

  lemma SearchInside(groups: seq<seq<Row>>, row: nat)
    requires row < |Flatten(groups)|
    ensures SearchRight(GroupEnds(groups), row) < |groups|
  {
    assert groups != [];
    assert groups[..|groups|] == groups;
    hide Flatten, SearchRight;
    assert GroupEnds(groups)[|groups| - 1] == |Flatten(groups)|;
  }

  lemma SearchMonotone(ends: seq<int>, g: int, h: int)
    requires g <= h
    ensures SearchRight(ends, g) <= SearchRight(ends, h)
  {
    hide SearchRight;
  }

  lemma HoldsFound(groups: seq<seq<Row>>, k: nat, row: nat)
    requires k == SearchRight(GroupEnds(groups), row) && k < |groups|
    ensures Holds(groups, k, row)
  {
    NothingFlat<Row>();
    hide Flatten, SearchRight;
    assert k > 0 ==> GroupEnds(groups)[k - 1] <= row;
  }

  lemma HoldsEnds(groups: seq<seq<Row>>, k: int, row: int)
    requires Holds(groups, k, row)
    ensures 0 <= k < |groups| && |Flatten(groups[..k])| <= row < |Flatten(groups[..k + 1])|
    ensures |Flatten(groups[..k + 1])| == |Flatten(groups[..k])| + |groups[k]|
  {
    hide Flatten;
    assert groups[..k + 1] == groups[..k] + [groups[k]];
    FlattenSnoc(groups[..k], groups[k]);
  }

  lemma FlatCut(groups: seq<seq<Row>>, a: nat, b: nat)
    requires a <= b <= |groups|
    ensures Flatten(groups[..b]) == Flatten(groups[..a]) + Flatten(groups[a..b])
  {
    hide *;
    assert groups[..b] == groups[..a] + groups[a..b];
    FlattenConcat(groups[..a], groups[a..b]);
  }

  lemma FlatThree(groups: seq<seq<Row>>, a: nat, b: nat)
    requires a <= b <= |groups|
    ensures Flatten(groups) == Flatten(groups[..a]) + Flatten(groups[a..b]) + Flatten(groups[b..])
  {
    hide *;
    assert groups == groups[..b] + groups[b..];
    FlattenConcat(groups[..b], groups[b..]);
    FlatCut(groups, a, b);
  }

  /** A read is at least the rows from the first wanted to the last wanted, and short of that plus its two
      end groups. */
  lemma ReadBound(groups: seq<seq<Row>>, g: int, h: int, most: nat)
    requires 0 <= g <= h < |Flatten(groups)| && forall k :: 0 <= k < |groups| ==> |groups[k]| <= most
    ensures h - g + 1 <= |ReadSpan(groups, g, h).1| <= h - g + 1 + 2 * (most - 1)
  {
    hide *;
    var first, last :| Reads(groups, first, last, g, h, ReadSpan(groups, g, h));
    SpanBound(groups, g, h, most, first, last);
  }

  lemma SpanBound(groups: seq<seq<Row>>, g: int, h: int, most: nat, first: int, last: int)
    requires 0 <= g <= h < |Flatten(groups)| && forall k :: 0 <= k < |groups| ==> |groups[k]| <= most
    requires Reads(groups, first, last, g, h, ReadSpan(groups, g, h))
    ensures h - g + 1 <= |ReadSpan(groups, g, h).1| <= h - g + 1 + 2 * (most - 1)
  {
    hide Flatten, ReadSpan, Holds;
    assert Holds(groups, first, g) && Holds(groups, last, h);
    HoldsEnds(groups, first, g);
    HoldsEnds(groups, last, h);
    FlatCut(groups, first, last + 1);
  }

  lemma {:induction false} RunLength(keep: seq<bool>, g: nat, h: nat)
    requires g <= h < |keep| && forall i :: g <= i <= h ==> keep[i]
    ensures |Nonzero(keep)| >= h - g + 1
  {
    var n := |keep| - 1;
    if h < n {
      RunLength(keep[..n], g, h);
    } else if g < n {
      RunLength(keep[..n], g, n - 1);
    }
  }

  /** The number of rows a slice read of one file loads before it filters. */
  function RowsRead(file: File, lo: int, hi: int): nat {
    var idx := Nonzero(Mask(TsColumn(file), lo, hi));
    if idx == [] then 0 else |ReadSpan(file.groups, idx[0], idx[|idx| - 1]).1|
  }

  /** From a file in time order a slice read loads the rows of the slice and less than two row groups more. */
  lemma SliceReads(file: File, lo: int, hi: int, most: nat)
    requires NonDecreasing(TsColumn(file)) && 0 < most && forall k :: 0 <= k < |file.groups| ==> |file.groups[k]| <= most
    ensures RowsRead(file, lo, hi) <= |SliceOf(0, file, lo, hi)| + 2 * (most - 1)
  {
    hide ReadSpan, Flatten, Nonzero;
    var ts := TsColumn(file);
    var mask := Mask(ts, lo, hi);
    var idx := Nonzero(mask);
    if idx != [] {
      var g, h := idx[0], idx[|idx| - 1];
      forall i | g <= i <= h ensures mask[i] {
        assert ts[g] <= ts[i] <= ts[h];
      }
      RunLength(mask, g, h);
      ReadBound(file.groups, g, h, most);
    }
  }

  /** Out of time order the same read can be the whole file: it is as soon as both ends lie in the slice. */
  lemma EndsReadAll(file: File, lo: int, hi: int)
    requires file.Rows() != [] && lo <= TsColumn(file)[0] < hi && lo <= TsColumn(file)[|TsColumn(file)| - 1] < hi
    ensures RowsRead(file, lo, hi) == |file.Rows()|
  {
    hide ReadSpan, Flatten, Nonzero;
    var mask := Mask(TsColumn(file), lo, hi);
    NonzeroComplete(mask, 0);
    NonzeroComplete(mask, |mask| - 1);
    EndsFirst(Nonzero(mask), |mask|);
  }

  lemma EndsFirst(idx: seq<int>, n: nat)
    requires Increasing(idx) && 0 in idx && n - 1 in idx && forall j :: 0 <= j < |idx| ==> 0 <= idx[j] < n
    ensures idx[0] == 0 && idx[|idx| - 1] == n - 1
  {
    var i, j :| 0 <= i < |idx| && 0 <= j < |idx| && idx[i] == 0 && idx[j] == n - 1;
    assert idx[0] <= idx[i] && idx[j] <= idx[|idx| - 1];
  }

  method SliceEvents(f: nat, file: File, lo: int, hi: int) returns (out: seq<Emitted>)
    ensures out == SliceOf(f, file, lo, hi)
  {
    hide Pick, ReadSpan, Nonzero, Reads, Holds, Flatten;
    var mask := Mask(TsColumn(file), lo, hi);
    var gidx := Nonzero(mask);
    if gidx == [] {
      return [];
    }
    var span := ReadSpan(file.groups, gidx[0], gidx[|gidx| - 1]);
    var start, table := span.0, span.1;
    var local := mask[start..start + |table|];
    var sub := Pick(table, local);
    PruneCovers(file.Rows(), mask, start, start + |table|);
    PickIsNonzero(file.Rows(), mask);
    out := RowsToEvents(f, file.kind, sub, Some(gidx));
  }

  /** Filtering only the pruned span selects exactly the rows filtering the whole file would. */
  lemma PruneCovers(rows: seq<Row>, mask: seq<bool>, a: nat, b: nat)
    requires |mask| == |rows| && Nonzero(mask) != []
    requires a <= Nonzero(mask)[0] && Nonzero(mask)[|Nonzero(mask)| - 1] < b <= |rows|
    ensures Pick(rows[a..b], mask[a..b]) == Pick(rows, mask)
  {
    hide *;
    SetWithin(mask, a, b);
    PickNone(rows[..a], mask[..a]);
    PickNone(rows[b..], mask[b..]);
    PickSplit(rows, mask, b);
    PickSplit(rows[..b], mask[..b], a);
    TakeDrop(rows, a, b);
    TakeDrop(mask, a, b);
  }

  lemma SetWithin(mask: seq<bool>, a: nat, b: nat)
    requires Nonzero(mask) != [] && a <= Nonzero(mask)[0] && Nonzero(mask)[|Nonzero(mask)| - 1] < b <= |mask|
    ensures a <= b
    ensures forall i :: 0 <= i < |mask[..a]| ==> !mask[..a][i]
    ensures forall i :: 0 <= i < |mask[b..]| ==> !mask[b..][i]
  {
    hide *;
    var idx := Nonzero(mask);
    IncreasingEnds(idx, idx[0]);
    forall i | 0 <= i < |mask| && mask[i] ensures a <= i < b {
      NonzeroComplete(mask, i);
      IncreasingEnds(idx, i);
    }
  }

  lemma IncreasingEnds(s: seq<int>, x: int)
    requires Increasing(s) && x in s
    ensures s[0] <= x <= s[|s| - 1]
  {
  }

  lemma TakeDrop<T>(s: seq<T>, a: nat, b: nat)
    requires a <= b <= |s|
    ensures s[..b][..a] == s[..a] && s[..b][a..] == s[a..b]
  {
  }

  ghost predicate RowEvent(f: nat, file: File, e: Emitted) {
    exists i :: 0 <= i < |file.Rows()| && e == EventOf(f, file.kind, file.Rows()[i], i)
  }

  /** A slice read holds exactly the rows whose timestamp lies in the slice, in order. */
  lemma SliceOfMeaning(f: nat, file: File, lo: int, hi: int)
    ensures InOrder(SliceOf(f, file, lo, hi))
    ensures forall e :: e in SliceOf(f, file, lo, hi) <==> lo <= e.ts < hi && RowEvent(f, file, e)
  {
    var idx := Nonzero(Mask(TsColumn(file), lo, hi));
    SortedEventsInOrder(f, file.kind, RowsAt(file.Rows(), idx), idx);
    forall e ensures e in SliceOf(f, file, lo, hi) <==> lo <= e.ts < hi && RowEvent(f, file, e) {
      SliceOfMember(f, file, lo, hi, e);
    }
  }

  lemma SliceOfMember(f: nat, file: File, lo: int, hi: int, e: Emitted)
    ensures e in SliceOf(f, file, lo, hi) <==> lo <= e.ts < hi && RowEvent(f, file, e)
  {
    var rows, mask := file.Rows(), Mask(TsColumn(file), lo, hi);
    var idx := Nonzero(mask);
    SortedEventsInOrder(f, file.kind, RowsAt(rows, idx), idx);
    MaskedMember(f, file.kind, rows, mask, e);
    forall i | 0 <= i < |rows| ensures mask[i] <==> lo <= EventOf(f, file.kind, rows[i], i).ts < hi {
    }
  }

  lemma MaskedMember(f: nat, kind: Kind, rows: seq<Row>, mask: seq<bool>, e: Emitted)
    requires |rows| == |mask|
    ensures var idx := Nonzero(mask);
            e in EventsAt(f, kind, RowsAt(rows, idx), idx)
            <==> exists i :: 0 <= i < |rows| && mask[i] && e == EventOf(f, kind, rows[i], i)
  {
    var idx := Nonzero(mask);
    var raw := EventsAt(f, kind, RowsAt(rows, idx), idx);
    if e in raw {
      var j :| 0 <= j < |raw| && raw[j] == e;
      assert mask[idx[j]] && e == EventOf(f, kind, rows[idx[j]], idx[j]);
    }
    if i :| 0 <= i < |rows| && mask[i] && e == EventOf(f, kind, rows[i], i) {
      NonzeroComplete(mask, i);
      var j :| 0 <= j < |idx| && idx[j] == i;
      assert raw[j] == e;
    }
  }

  // --------------------------------------------------------- the whole-day merge

  /** Every row of the day once, in file order. */
  function RawEvents(files: seq<File>): seq<seq<Emitted>> {
    seq(|files|, f requires 0 <= f < |files| =>
      EventsAt(f, files[f].kind, files[f].Rows(), Enumeration(|files[f].Rows()|)))
  }

  function SortedFiles(files: seq<File>): seq<seq<Emitted>> {
    seq(|files|, f requires 0 <= f < |files| =>
      SortedEvents(f, files[f].kind, files[f].Rows(), Enumeration(|files[f].Rows()|)))
  }

  /** The simple form: sort each file whole, merge all of them. */
  function WholeDay(files: seq<File>): seq<Emitted> {
    KeyOrder();
    HeapMerge(KeyBefore, SortedFiles(files))
  }

  ghost predicate FromDay(files: seq<File>, e: Emitted) {
    exists f :: 0 <= f < |files| && RowEvent(f, files[f], e)
  }

  lemma SortedFileMember(files: seq<File>, f: nat, e: Emitted)
    requires f < |files|
    ensures InOrder(SortedFiles(files)[f])
    ensures e in SortedFiles(files)[f] <==> RowEvent(f, files[f], e)
  {
    var rows := files[f].Rows();
    var n := Enumeration(|rows|);
    SortedEventsInOrder(f, files[f].kind, rows, n);
    var raw := EventsAt(f, files[f].kind, rows, n);
    if i :| 0 <= i < |rows| && e == EventOf(f, files[f].kind, rows[i], i) {
      assert raw[i] == e;
    }
    if e in raw {
      var i :| 0 <= i < |raw| && raw[i] == e;
      assert e == EventOf(f, files[f].kind, rows[i], i);
    }
  }

  /** The whole-day merge holds every row exactly once, with its true row index, in ascending order. */
  lemma WholeDayMeaning(files: seq<File>)
    ensures InOrder(WholeDay(files))
    ensures multiset(WholeDay(files)) == multiset(Flatten(RawEvents(files)))
    ensures forall e :: e in WholeDay(files) <==> FromDay(files, e)
  {
    KeyOrder();
    SortedFilesMergeable(files);
    HeapMergeAscending(KeyBefore, FileNo, SortedFiles(files));
    FlattenSamePieces(SortedFiles(files), RawEvents(files));
    forall e ensures e in WholeDay(files) <==> FromDay(files, e) {
      WholeDayMember(files, e);
    }
  }

  lemma SortedFilesMergeable(files: seq<File>)
    ensures Mergeable(KeyBefore, FileNo, SortedFiles(files))
  {
    var lists := SortedFiles(files);
    forall f | 0 <= f < |lists| ensures InOrder(lists[f]) && forall a: Emitted :: a in lists[f] ==> FileNo(a) == f {
      SortedEventsInOrder(f, files[f].kind, files[f].Rows(), Enumeration(|files[f].Rows()|));
    }
  }

  lemma WholeDayMember(files: seq<File>, e: Emitted)
    ensures e in WholeDay(files) <==> FromDay(files, e)
  {
    KeyOrder();
    var lists := SortedFiles(files);
    HeapMergeMember(KeyBefore, lists, e);
    forall f | 0 <= f < |files|
      ensures e in lists[f] <==> RowEvent(f, files[f], e)
    {
      SortedFileMember(files, f, e);
    }
  }

  lemma {:induction false} FlattenSamePieces<T>(xss: seq<seq<T>>, yss: seq<seq<T>>)
    requires |xss| == |yss| && forall p :: 0 <= p < |xss| ==> multiset(xss[p]) == multiset(yss[p])
    ensures multiset(Flatten(xss)) == multiset(Flatten(yss))
  {
    if xss != [] {
      FlattenSamePieces(xss[1..], yss[1..]);
    }
  }

  // --------------------------------------------------------------- slice bounds

  /** All timestamps of the day, sorted. */
  function AllTs(files: seq<File>): seq<int> {
    Sort(Flatten(Map(TsColumn, files)), AtMost)
  }

  /** Every `step`-th element: `all_ts[::step]`. */
  function Stride(s: seq<int>, step: nat): (r: seq<int>)
    requires 0 < step
    ensures s != [] ==> r != [] && r[0] == s[0]
  {
    if |s| <= step then s[..if s == [] then 0 else 1] else [s[0]] + Stride(s[step..], step)
  }

  /** `np.unique` of an array that is already sorted. */
  function Unique(s: seq<int>): (r: seq<int>)
    ensures s != [] ==> r != [] && r[0] == s[0]
  {
    if |s| <= 1 then s
    else if s[0] == s[1] then Unique(s[1..])
    else [s[0]] + Unique(s[1..])
  }

  function SliceBounds(allTs: seq<int>, step: nat): seq<int>
    requires 0 < step && allTs != []
  {
    Unique(Stride(allTs, step)) + [allTs[|allTs| - 1] + 1]
  }

  function CountIn(s: seq<int>, lo: int, hi: int): nat {
    if s == [] then 0 else (if lo <= s[0] < hi then 1 else 0) + CountIn(s[1..], lo, hi)
  }

  lemma {:induction false} CountInConcat(s: seq<int>, t: seq<int>, lo: int, hi: int)
    ensures CountIn(s + t, lo, hi) == CountIn(s, lo, hi) + CountIn(t, lo, hi)
  {
    if s == [] {
      assert s + t == t;
    } else {
      CountInConcat(s[1..], t, lo, hi);
      assert (s + t)[1..] == s[1..] + t;
    }
  }

  lemma {:induction false} CountInBound(s: seq<int>, lo: int, hi: int)
    ensures CountIn(s, lo, hi) <= |s|
    ensures (forall i :: 0 <= i < |s| ==> !(lo <= s[i] < hi)) ==> CountIn(s, lo, hi) == 0
    ensures (forall i :: 0 <= i < |s| ==> lo <= s[i] < hi) ==> CountIn(s, lo, hi) == |s|
  {
    if s != [] {
      CountInBound(s[1..], lo, hi);
    }
  }

  /** When nothing lies strictly between, counting [b, hi) is counting b. */
  lemma {:induction false} CountInOnlyLow(s: seq<int>, b: int, hi: int)
    requires b < hi && forall i :: 0 <= i < |s| ==> s[i] <= b
    ensures CountIn(s, b, hi) == CountIn(s, b, b + 1)
  {
    if s != [] {
      CountInOnlyLow(s[1..], b, hi);
    }
  }

  ghost predicate SortedInts(s: seq<int>) {
    Sorted(s, AtMost)
  }

  /** Bounds start at the first timestamp, strictly increase, and end just past the last one. */
  lemma {:induction false} BoundsIncrease(s: seq<int>, step: nat)
    requires 0 < step && s != [] && SortedInts(s)
    ensures var u := SliceBounds(s, step); |u| >= 2 && u[0] == s[0] && u[|u| - 1] == s[|s| - 1] + 1 && Increasing(u)
  {
    assert forall i :: 0 <= i < |s| ==> AtMost(s[0], s[i]) || i == 0;
    if |s| > step {
      SortedDrop(s, step);
      BoundsIncrease(s[step..], step);
      BoundsUnfold(s, step);
      assert AtMost(s[0], s[step]);
    }
  }

  lemma BoundsUnfold(s: seq<int>, step: nat)
    requires 0 < step < |s|
    ensures var u, v := SliceBounds(s, step), SliceBounds(s[step..], step);
            u == if s[0] == s[step] then v else [s[0]] + v
  {
    var t := s[step..];
    assert Stride(s, step) == [s[0]] + Stride(t, step);
    assert Stride(t, step)[0] == s[step];
    assert Stride(s, step)[1..] == Stride(t, step);
  }

  lemma SortedDrop(s: seq<int>, n: nat)
    requires SortedInts(s) && n <= |s|
    ensures SortedInts(s[n..])
    ensures forall i :: 0 <= i < n < |s| ==> s[i] <= s[n]
    ensures n < |s| ==> forall i :: n <= i < |s| ==> s[n] <= s[i]
  {
    forall i, j | 0 <= i < j < |s| ensures s[i] <= s[j] {
      assert AtMost(s[i], s[j]);
    }
  }

  lemma IncreasingPair(s: seq<int>, i: nat, j: nat)
    requires Increasing(s) && i <= j < |s|
    ensures i < j ==> s[i] < s[j]
  {
  }

  /** The memory bound: a slice holds at most `step - 1` rows besides those at its lowest timestamp. */
  lemma {:induction false} SliceSize(s: seq<int>, step: nat, u: seq<int>, j: nat)
    requires 0 < step && s != [] && SortedInts(s)
    requires u == SliceBounds(s, step) && j + 1 < |u|
    ensures CountIn(s, u[j], u[j + 1]) <= step - 1 + CountIn(s, u[j], u[j] + 1)
  {
    if |s| <= step {
      CountInBound(s[1..], u[j], u[j + 1]);
    } else {
      hide *;
      var t := s[step..];
      var v := SliceBounds(t, step);
      SortedDrop(s, step);
      BoundsUnfold(s, step);
      BoundsIncrease(t, step);
      if s[0] == s[step] || j > 0 {
        var k := if s[0] == s[step] then j else j - 1;
        SliceSize(t, step, v, k);
        assert u[j] == v[k] && u[j + 1] == v[k + 1];
        IncreasingPair(v, 0, k);
        IncreasingPair(v, k, k + 1);
        EarlierRows(s, step, u[j], u[j + 1]);
      } else {
        FirstSlice(s, step, s[0], s[step]);
      }
    }
  }

  /** Rows before a later slice only ever share its lowest timestamp. */
  lemma EarlierRows(s: seq<int>, step: nat, b: int, c: int)
    requires step < |s| && b < c && forall i :: 0 <= i < step ==> s[i] <= b
    ensures CountIn(s, b, c) - CountIn(s[step..], b, c) == CountIn(s, b, b + 1) - CountIn(s[step..], b, b + 1)
  {
    assert s == s[..step] + s[step..];
    CountInConcat(s[..step], s[step..], b, c);
    CountInConcat(s[..step], s[step..], b, b + 1);
    CountInOnlyLow(s[..step], b, c);
  }

  lemma FirstSlice(s: seq<int>, step: nat, b: int, c: int)
    requires 0 < step < |s| && s[0] == b < c && forall i :: step <= i < |s| ==> c <= s[i]
    ensures CountIn(s, b, c) <= step && 1 <= CountIn(s, b, b + 1)
  {
    assert s == s[..step] + s[step..];
    CountInConcat(s[..step], s[step..], b, c);
    CountInBound(s[..step], b, c);
    CountInBound(s[step..], b, c);
  }

  // ------------------------------------------------------- the sliced merge

  function Slices(files: seq<File>, lo: int, hi: int): (r: seq<seq<Emitted>>)
    ensures |r| == |files|
  {
    seq(|files|, f requires 0 <= f < |files| => SliceOf(f, files[f], lo, hi))
  }

  function DropEmpty<T>(lists: seq<seq<T>>): (r: seq<seq<T>>)
    ensures Flatten(r) == Flatten(lists)
    ensures forall l :: l in r ==> l in lists
  {
    if lists == [] then []
    else if lists[0] == [] then DropEmpty(lists[1..])
    else [lists[0]] + DropEmpty(lists[1..])
  }

  lemma {:induction false} DropEmptyMergeable(lists: seq<seq<Emitted>>)
    requires Mergeable(KeyBefore, FileNo, lists)
    ensures Mergeable(KeyBefore, FileNo, DropEmpty(lists))
  {
    if lists != [] {
      DropEmptyMergeable(lists[1..]);
      var rest := DropEmpty(lists[1..]);
      forall q, b, a | 0 <= q < |rest| && b in rest[q] && a in lists[0] ensures FileNo(a) < FileNo(b) {
        assert rest[q] in lists[1..];
        var k :| 0 <= k < |lists[1..]| && lists[1..][k] == rest[q];
        assert b in lists[k + 1];
      }
      if lists[0] != [] {
        ConsMergeable(lists[0], rest);
      }
    }
  }

  lemma ConsMergeable(l: seq<Emitted>, rest: seq<seq<Emitted>>)
    requires Mergeable(KeyBefore, FileNo, rest) && InOrder(l)
    requires forall q, b, a :: 0 <= q < |rest| && b in rest[q] && a in l ==> FileNo(a) < FileNo(b)
    ensures Mergeable(KeyBefore, FileNo, [l] + rest)
  {
    var lists := [l] + rest;
    forall p | 0 <= p < |lists| ensures InOrder(lists[p]) {
    }
    forall p, q, a, b | 0 <= p < q < |lists| && a in lists[p] && b in lists[q] ensures FileNo(a) < FileNo(b) {
      assert lists[q] == rest[q - 1];
    }
  }

  function SliceMerge(files: seq<File>, lo: int, hi: int): seq<Emitted> {
    KeyOrder();
    HeapMerge(KeyBefore, DropEmpty(Slices(files, lo, hi)))
  }

  lemma SliceMergeMeaning(files: seq<File>, lo: int, hi: int)
    ensures InOrder(SliceMerge(files, lo, hi))
    ensures forall e :: e in SliceMerge(files, lo, hi) <==> FromDay(files, e) && lo <= e.ts < hi
  {
    KeyOrder();
    var lists := Slices(files, lo, hi);
    forall f | 0 <= f < |lists| ensures InOrder(lists[f]) && forall a: Emitted :: a in lists[f] ==> FileNo(a) == f {
      SliceOfMeaning(f, files[f], lo, hi);
    }
    DropEmptyMergeable(lists);
    HeapMergeAscending(KeyBefore, FileNo, DropEmpty(lists));
    forall e ensures e in SliceMerge(files, lo, hi) <==> FromDay(files, e) && lo <= e.ts < hi {
      SliceMergeMember(files, lo, hi, e);
    }
  }

  lemma SliceMergeMember(files: seq<File>, lo: int, hi: int, e: Emitted)
    ensures e in SliceMerge(files, lo, hi) <==> FromDay(files, e) && lo <= e.ts < hi
  {
    KeyOrder();
    var lists := Slices(files, lo, hi);
    assert e in SliceMerge(files, lo, hi) <==> e in multiset(SliceMerge(files, lo, hi));
    assert e in Flatten(lists) <==> e in multiset(Flatten(lists));
    FlattenMember(lists, e);
    forall f | 0 <= f < |files|
      ensures e in lists[f] <==> lo <= e.ts < hi && RowEvent(f, files[f], e)
    {
      SliceOfMeaning(f, files[f], lo, hi);
    }
  }

  lemma EventTs(files: seq<File>, e: Emitted)
    requires FromDay(files, e)
    ensures e.key.ts == e.ts && e.ts in AllTs(files)
  {
    hide Flatten, Sort;
    var f :| 0 <= f < |files| && RowEvent(f, files[f], e);
    var i :| 0 <= i < |files[f].Rows()| && e == EventOf(f, files[f].kind, files[f].Rows()[i], i);
    var cols := Map(TsColumn, files);
    assert cols[f][i] == e.ts;
    FlattenMember(cols, e.ts);
    SortMember(Flatten(cols), AtMost, e.ts);
  }

  lemma WithinSorted(s: seq<int>, x: int)
    requires SortedInts(s) && x in s
    ensures s[0] <= x <= s[|s| - 1]
  {
    var k :| 0 <= k < |s| && s[k] == x;
    assert k == 0 || AtMost(s[0], s[k]);
    assert k == |s| - 1 || AtMost(s[k], s[|s| - 1]);
  }

  lemma InOrderConcat(files: seq<File>, s: seq<Emitted>, t: seq<Emitted>, cut: int)
    requires InOrder(s) && InOrder(t)
    requires forall e :: e in s ==> FromDay(files, e) && e.ts < cut
    requires forall e :: e in t ==> FromDay(files, e) && cut <= e.ts
    ensures InOrder(s + t)
  {
    var u := s + t;
    forall i, j | 0 <= i < j < |u| ensures Before(KeyBefore, FileNo, u[i], u[j]) {
      if i < |s| <= j {
        assert u[i] in s && u[j] in t;
        EventTs(files, u[i]);
        EventTs(files, u[j]);
      } else if j < |s| {
        assert Before(KeyBefore, FileNo, s[i], s[j]);
      } else {
        assert Before(KeyBefore, FileNo, t[i - |s|], t[j - |s|]);
      }
    }
  }

  /** Appending the merge of the next slice to everything before it. */
  lemma NextSlice(files: seq<File>, out: seq<Emitted>, lo: int, hi: int)
    requires InOrder(out) && lo < hi
    requires forall e :: e in out <==> FromDay(files, e) && e.ts < lo
    ensures InOrder(out + SliceMerge(files, lo, hi))
    ensures forall e :: e in out + SliceMerge(files, lo, hi) <==> FromDay(files, e) && e.ts < hi
  {
    SliceMergeMeaning(files, lo, hi);
    InOrderConcat(files, out, SliceMerge(files, lo, hi), lo);
  }

  /** The slices cover every timestamp of the day. */
  lemma BoundsCover(streams: seq<File>, step: nat)
    requires 0 < step && AllTs(streams) != [] && SortedInts(AllTs(streams))
    ensures var u := SliceBounds(AllTs(streams), step);
            |u| >= 2 && Increasing(u) && forall e :: FromDay(streams, e) ==> u[0] <= e.ts < u[|u| - 1]
  {
    hide AllTs, SliceBounds, FromDay;
    var allTs := AllTs(streams);
    BoundsIncrease(allTs, step);
    forall e | FromDay(streams, e) ensures allTs[0] <= e.ts <= allTs[|allTs| - 1] {
      EventTs(streams, e);
      WithinSorted(allTs, e.ts);
    }
  }

  /** `_file_streams`: unreadable and empty files are left out. */
  function Usable(source: seq<SourceFile>): (r: seq<File>)
    ensures forall f :: f in r ==> f.Rows() != [] && Readable(f) in source
    ensures forall s :: s in source && s.Readable? && s.file.Rows() != [] ==> s.file in r
  {
    if source == [] then []
    else
      var n := |source| - 1;
      assert source == source[..n] + [source[n]];
      var r := Usable(source[..n]);
      if source[n].Readable? && source[n].file.Rows() != [] then r + [source[n].file] else r
  }

  method FileStreams(source: seq<SourceFile>) returns (streams: seq<File>)
    ensures streams == Usable(source)
  {
    streams := [];
    for i := 0 to |source|
      invariant streams == Usable(source[..i])
    {
      assert source[..i + 1][..i] == source[..i];
      if source[i].Readable? {
        if source[i].file.Rows() != [] {
          streams := streams + [source[i].file];
        }
      }
    }
    assert source[..|source|] == source;
  }

  /** The slice-by-slice stream is the whole-day merge, whatever the timestamps. */
  method IterEvents(streams: seq<File>) returns (out: seq<Emitted>)
    requires forall f :: f in streams ==> f.Rows() != []
    ensures out == WholeDay(streams)
  {
    hide WholeDay, SliceMerge, SliceBounds, AllTs, FromDay;
    out := [];
    WholeDayMeaning(streams);
    KeyOrder();
    if streams == [] {
      EmptyDay();
      return;
    }
    var allTs := AllTs(streams);
    AllTsNonempty(streams);
    var bounds := SliceBounds(allTs, SLICE_TARGET_ROWS);
    BoundsCover(streams, SLICE_TARGET_ROWS);
    for j := 0 to |bounds| - 1
      invariant InOrder(out)
      invariant forall e :: e in out <==> FromDay(streams, e) && e.ts < bounds[j]
    {
      var merged := MergeSlice(streams, bounds[j], bounds[j + 1]);
      NextSlice(streams, out, bounds[j], bounds[j + 1]);
      out := out + merged;
    }
    AscendingUnique(KeyBefore, FileNo, out, WholeDay(streams));
  }

  method MergeSlice(streams: seq<File>, lo: int, hi: int) returns (merged: seq<Emitted>)
    ensures merged == SliceMerge(streams, lo, hi)
  {
    hide SliceOf;
    var lists: seq<seq<Emitted>> := [];
    for f := 0 to |streams|
      invariant lists == Slices(streams, lo, hi)[..f]
    {
      var l := SliceEvents(f, streams[f], lo, hi);
      lists := lists + [l];
    }
    assert lists == Slices(streams, lo, hi);
    KeyOrder();
    lists := DropEmpty(lists);
    merged := HeapMerge(KeyBefore, lists);
  }

  lemma AllTsNonempty(streams: seq<File>)
    requires streams != [] && forall f :: f in streams ==> f.Rows() != []
    ensures AllTs(streams) != [] && SortedInts(AllTs(streams))
  {
    var cols := Map(TsColumn, streams);
    assert streams[0] in streams;
    assert cols[0] != [];
    FlattenMember(cols, cols[0][0]);
    SortSorted(Flatten(cols), AtMost);
  }

  // ------------------------------------------------------------- memory per slice

  lemma {:induction false} CountInInsert(x: int, s: seq<int>, lo: int, hi: int)
    ensures CountIn(Insert(x, s, AtMost), lo, hi) == CountIn([x] + s, lo, hi)
  {
    assert ([x] + s)[1..] == s;
    if s != [] && !AtMost(x, s[0]) {
      CountInInsert(x, s[1..], lo, hi);
      assert ([x] + s[1..])[1..] == s[1..];
      assert Insert(x, s, AtMost)[1..] == Insert(x, s[1..], AtMost);
    }
  }

  lemma {:induction false} CountInSort(s: seq<int>, lo: int, hi: int)
    ensures CountIn(Sort(s, AtMost), lo, hi) == CountIn(s, lo, hi)
  {
    if s != [] {
      CountInSort(s[1..], lo, hi);
      CountInInsert(s[0], Sort(s[1..], AtMost), lo, hi);
      assert ([s[0]] + Sort(s[1..], AtMost))[1..] == Sort(s[1..], AtMost);
    }
  }

  lemma {:induction false} NonzeroCount(ts: seq<int>, lo: int, hi: int)
    ensures |Nonzero(Mask(ts, lo, hi))| == CountIn(ts, lo, hi)
  {
    if ts != [] {
      var n := |ts| - 1;
      NonzeroCount(ts[..n], lo, hi);
      assert Mask(ts, lo, hi)[..n] == Mask(ts[..n], lo, hi);
      assert ts == ts[..n] + [ts[n]];
      CountInConcat(ts[..n], [ts[n]], lo, hi);
    }
  }

  lemma {:induction false} SlicesCount(lists: seq<seq<Emitted>>, cols: seq<seq<int>>, lo: int, hi: int)
    requires |lists| == |cols| && forall f :: 0 <= f < |lists| ==> |lists[f]| == CountIn(cols[f], lo, hi)
    ensures |Flatten(lists)| == CountIn(Flatten(cols), lo, hi)
  {
    if lists != [] {
      SlicesCount(lists[1..], cols[1..], lo, hi);
      CountInConcat(cols[0], Flatten(cols[1..]), lo, hi);
    }
  }

  /** The number of rows kept for merging slice [lo, hi). */
  function SliceRows(files: seq<File>, lo: int, hi: int): nat {
    |Flatten(Slices(files, lo, hi))|
  }

  lemma SliceRowsCount(files: seq<File>, lo: int, hi: int)
    ensures SliceRows(files, lo, hi) == CountIn(AllTs(files), lo, hi)
  {
    var lists, cols := Slices(files, lo, hi), Map(TsColumn, files);
    forall f | 0 <= f < |files| ensures |lists[f]| == CountIn(cols[f], lo, hi) {
      NonzeroCount(TsColumn(files[f]), lo, hi);
    }
    SlicesCount(lists, cols, lo, hi);
    CountInSort(Flatten(cols), lo, hi);
  }

  /** Whatever the day, a slice holds fewer than `step` rows (the engine's SLICE_TARGET_ROWS) besides
      those that share its lowest timestamp. */
  lemma SliceMemory(files: seq<File>, step: nat, u: seq<int>, j: nat)
    requires 0 < step && files != [] && forall f :: f in files ==> f.Rows() != []
    requires AllTs(files) != [] && u == SliceBounds(AllTs(files), step) && j + 1 < |u|
    ensures SliceRows(files, u[j], u[j + 1]) <= step - 1 + SliceRows(files, u[j], u[j] + 1)
  {
    hide SliceBounds, SliceRows, CountIn, AllTs;
    AllTsNonempty(files);
    SliceSize(AllTs(files), step, u, j);
    SliceRowsCount(files, u[j], u[j + 1]);
    SliceRowsCount(files, u[j], u[j] + 1);
  }

  /** So a slice as the engine cuts it keeps fewer than 150,000 rows besides those, and all slices but one could
      have been filled to that: there are no more of them than the day needs. */
  lemma EngineSlice(files: seq<File>, u: seq<int>, j: nat)
    requires files != [] && forall f :: f in files ==> f.Rows() != []
    requires AllTs(files) != [] && u == SliceBounds(AllTs(files), SLICE_TARGET_ROWS) && j + 1 < |u|
    ensures SliceRows(files, u[j], u[j + 1]) < 150_000 + SliceRows(files, u[j], u[j] + 1)
    ensures 150_000 * (|u| - 2) < |AllTs(files)|
  {
    SliceCount(AllTs(files), SLICE_TARGET_ROWS);
    hide SliceBounds, SliceRows, AllTs;
    SliceMemory(files, SLICE_TARGET_ROWS, u, j);
  }

  lemma {:induction false} UniqueShorter(s: seq<int>)
    ensures |Unique(s)| <= |s|
  {
    if s != [] {
      UniqueShorter(s[1..]);
    }
  }

  lemma {:induction false} StrideLength(s: seq<int>, step: nat)
    requires 0 < step
    ensures step * |Stride(s, step)| < |s| + step
  {
    if |s| > step {
      StrideLength(s[step..], step);
      assert |Stride(s, step)| == 1 + |Stride(s[step..], step)|;
      assert step * (1 + |Stride(s[step..], step)|) == step + step * |Stride(s[step..], step)|;
    } else if s != [] {
      assert |Stride(s, step)| == 1;
    }
  }

  lemma SliceCount(s: seq<int>, step: nat)
    requires 0 < step && s != []
    ensures step * (|SliceBounds(s, step)| - 2) < |s|
  {
    var n, k := |Stride(s, step)|, |SliceBounds(s, step)| - 1;
    UniqueShorter(Stride(s, step));
    StrideLength(s, step);
    assert k <= n;
    hide *;
    FewerLots(step, k, n, |s|);
  }

  lemma FewerLots(step: int, k: int, n: int, rows: int)
    requires 0 < step && k <= n && step * n < rows + step
    ensures step * (k - 1) < rows
  {
    assert step * (n - k) >= 0;
    assert step * (k - 1) == step * n - step * (n - k) - step;
  }

  lemma {:induction false} CountOne(s: seq<int>, x: int)
    requires Distinct(s)
    ensures CountIn(s, x, x + 1) <= 1
  {
    if s != [] {
      CountOne(s[1..], x);
      if s[0] == x {
        CountInBound(s[1..], x, x + 1);
      }
    }
  }

  /** With distinct timestamps no slice exceeds `step` rows. */
  lemma SliceMemoryDistinct(files: seq<File>, step: nat, u: seq<int>, j: nat)
    requires 0 < step && files != [] && forall f :: f in files ==> f.Rows() != []
    requires AllTs(files) != [] && u == SliceBounds(AllTs(files), step) && j + 1 < |u|
    requires Distinct(AllTs(files))
    ensures SliceRows(files, u[j], u[j + 1]) <= step
  {
    hide SliceBounds, SliceRows, CountIn, AllTs;
    SliceMemory(files, step, u, j);
    SliceRowsCount(files, u[j], u[j] + 1);
    CountOne(AllTs(files), u[j]);
  }

  lemma {:induction false} PieceLength<T>(lists: seq<seq<T>>, f: nat)
    requires f < |lists|
    ensures |lists[f]| <= |Flatten(lists)|
  {
    if f > 0 {
      PieceLength(lists[1..], f - 1);
    }
  }

  /** And the table loaded to cut one file's rows out is no larger than that bound and less than two row
      groups more, for a file in time order. */
  lemma SliceTable(files: seq<File>, step: nat, u: seq<int>, j: nat, f: nat, most: nat)
    requires 0 < step && f < |files| && forall f :: f in files ==> f.Rows() != []
    requires AllTs(files) != [] && u == SliceBounds(AllTs(files), step) && j + 1 < |u|
    requires NonDecreasing(TsColumn(files[f])) && 0 < most
    requires forall k :: 0 <= k < |files[f].groups| ==> |files[f].groups[k]| <= most
    ensures RowsRead(files[f], u[j], u[j + 1]) <= step - 1 + SliceRows(files, u[j], u[j] + 1) + 2 * (most - 1)
  {
    hide SliceBounds, CountIn, AllTs, RowsRead, NonDecreasing, SliceOf, Flatten;
    SliceMemory(files, step, u, j);
    SliceReads(files[f], u[j], u[j + 1], most);
    SliceLength(f, files[f], u[j], u[j + 1]);
    PieceLength(Slices(files, u[j], u[j + 1]), f);
  }

  lemma SliceLength(f: nat, file: File, lo: int, hi: int)
    ensures |SliceOf(f, file, lo, hi)| == |SliceOf(0, file, lo, hi)|
  {
  }

  // ------------------------------------------------------ the day, row by row

  /** A row of the day: its file and its place there. */
  datatype Place = Place(file: nat, row: nat)

  ghost predicate Within(files: seq<File>, p: Place) {
    p.file < |files| && p.row < |files[p.file].Rows()|
  }

  predicate PlaceBefore(files: seq<File>, p: Place, q: Place)
    requires Within(files, p) && Within(files, q)
  {
    RowBefore(files[p.file].kind, files[p.file].Rows()[p.row], p.row, files[q.file].kind, files[q.file].Rows()[q.row], q.row)
  }

  /** `order` lists every row of the day once, in the order of the columns, rows that compare equal in the
      order of their files. */
  ghost predicate DayOrder(files: seq<File>, order: seq<Place>) {
    && (forall n :: 0 <= n < |order| ==> Within(files, order[n]))
    && (forall p :: Within(files, p) ==> p in order)
    && (forall m, n :: 0 <= m < n < |order| ==>
          PlaceBefore(files, order[m], order[n]) || (!PlaceBefore(files, order[n], order[m]) && order[m].file < order[n].file))
  }

  function EventAt(files: seq<File>, p: Place): Emitted
    requires Within(files, p)
  {
    EventOf(p.file, files[p.file].kind, files[p.file].Rows()[p.row], p.row)
  }

  function PlaceOf(e: Emitted): Place
    requires e.key.idx >= 0
  {
    Place(e.file, e.key.idx)
  }

  lemma PlaceOfEvent(files: seq<File>, e: Emitted)
    requires FromDay(files, e)
    ensures e.key.idx >= 0 && Within(files, PlaceOf(e)) && EventAt(files, PlaceOf(e)) == e
  {
  }

  lemma EventOfPlace(files: seq<File>, p: Place)
    requires Within(files, p)
    ensures FromDay(files, EventAt(files, p)) && EventAt(files, p).key.idx == p.row && EventAt(files, p).file == p.file
  {
    assert RowEvent(p.file, files[p.file], EventAt(files, p));
  }

  /** `events` are the events of the rows listed in `order`. */
  ghost predicate EventsOf(files: seq<File>, order: seq<Place>, events: seq<Emitted>) {
    |events| == |order| && forall n :: 0 <= n < |order| ==> Within(files, order[n]) && events[n] == EventAt(files, order[n])
  }

  /** The merge of the whole day delivers the rows in that order. */
  lemma WholeDayOrder(files: seq<File>) returns (order: seq<Place>)
    ensures DayOrder(files, order) && EventsOf(files, order, WholeDay(files))
  {
    hide WholeDay, EventOf, RowBefore;
    var day := WholeDay(files);
    WholeDayMeaning(files);
    forall n | 0 <= n < |day|
      ensures day[n].key.idx >= 0 && Within(files, PlaceOf(day[n])) && EventAt(files, PlaceOf(day[n])) == day[n]
    {
      PlaceOfEvent(files, day[n]);
    }
    order := seq(|day|, n requires 0 <= n < |day| => PlaceOf(day[n]));
    forall p | Within(files, p) ensures p in order {
      EventOfPlace(files, p);
      var n :| 0 <= n < |day| && day[n] == EventAt(files, p);
      assert order[n] == p;
    }
    OrderOfEvents(files, order, day);
  }

  lemma OrderOfEvents(files: seq<File>, order: seq<Place>, events: seq<Emitted>)
    requires EventsOf(files, order, events)
    ensures InOrder(events) <==>
            forall m, n :: 0 <= m < n < |order| ==>
              PlaceBefore(files, order[m], order[n]) || (!PlaceBefore(files, order[n], order[m]) && order[m].file < order[n].file)
  {
    hide KeyBefore, RowBefore;
    forall m, n | 0 <= m < n < |order|
      ensures Before(KeyBefore, FileNo, events[m], events[n]) <==>
              PlaceBefore(files, order[m], order[n]) || (!PlaceBefore(files, order[n], order[m]) && order[m].file < order[n].file)
    {
      PairOrder(files, order[m], order[n]);
    }
  }

  lemma PairOrder(files: seq<File>, p: Place, q: Place)
    requires Within(files, p) && Within(files, q)
    ensures Before(KeyBefore, FileNo, EventAt(files, p), EventAt(files, q)) <==>
            PlaceBefore(files, p, q) || (!PlaceBefore(files, q, p) && p.file < q.file)
  {
    EventOfPlace(files, p);
    EventOfPlace(files, q);
    KeyIsColumns(p.file, q.file, files[p.file].kind, files[q.file].kind, files[p.file].Rows()[p.row], files[q.file].Rows()[q.row], p.row, q.row);
    KeyIsColumns(q.file, p.file, files[q.file].kind, files[p.file].kind, files[q.file].Rows()[q.row], files[p.file].Rows()[p.row], q.row, p.row);
    hide KeyBefore, RowBefore, EventOf;
  }

  /** There is only one such order, so the stream is determined by the columns. */
  lemma DayOrderUnique(files: seq<File>, order: seq<Place>, other: seq<Place>)
    requires DayOrder(files, order) && DayOrder(files, other)
    ensures order == other
  {
    hide RowBefore, KeyBefore;
    var a := seq(|order|, n requires 0 <= n < |order| => EventAt(files, order[n]));
    var b := seq(|other|, n requires 0 <= n < |other| => EventAt(files, other[n]));
    OrderOfEvents(files, order, a);
    OrderOfEvents(files, other, b);
    SameEvents(files, order, other, a, b);
    SameEvents(files, other, order, b, a);
    KeyOrder();
    AscendingUnique(KeyBefore, FileNo, a, b);
    forall n | 0 <= n < |order| ensures order[n] == other[n] {
      assert a[n] == b[n];
      EventOfPlace(files, order[n]);
      EventOfPlace(files, other[n]);
    }
  }

  lemma SameEvents(files: seq<File>, order: seq<Place>, other: seq<Place>, a: seq<Emitted>, b: seq<Emitted>)
    requires DayOrder(files, order) && DayOrder(files, other) && EventsOf(files, order, a) && EventsOf(files, other, b)
    ensures forall e :: e in a ==> e in b
  {
    hide RowBefore, EventOf;
    forall e | e in a ensures e in b {
      var n :| 0 <= n < |a| && a[n] == e;
      var m :| 0 <= m < |other| && other[m] == order[n];
      assert b[m] == e;
    }
  }

  /** The call a row is delivered by: the file's own row, with its timestamp. */
  function CallFor(files: seq<File>, p: Place): Call
    requires Within(files, p)
  {
    var row := files[p.file].Rows()[p.row];
    var ts := if row.ts.Some? then row.ts.value else 0;
    match files[p.file].kind
    case Tick => OnPacket(row, ts)
    case Depth => OnDepth(row, ts)
    case Event => OnEvent(row)
  }

  ghost predicate CallsFor(files: seq<File>, order: seq<Place>, calls: seq<Call>) {
    |calls| == |order| && forall n :: 0 <= n < |order| ==> Within(files, order[n]) && calls[n] == CallFor(files, order[n])
  }

  // --------------------------------------------------------------------- drive

  datatype Call = OnPacket(row: Row, ts: int) | OnDepth(row: Row, ts: int) | OnEvent(row: Row)

  datatype Summary = Summary(packets: nat, depth: nat, events: nat, firstTs: Option<int>, lastTs: Option<int>)

  function Deliver(e: Emitted): Call {
    match e.kind
    case Tick => OnPacket(e.row, e.ts)
    case Depth => OnDepth(e.row, e.ts)
    case Event => OnEvent(e.row)
  }

  function CountKind(s: seq<Emitted>, k: Kind): nat {
    if s == [] then 0 else CountKind(s[..|s| - 1], k) + (if s[|s| - 1].kind == k then 1 else 0)
  }

  function RowsOfKind(files: seq<File>, k: Kind): nat {
    if files == [] then 0
    else RowsOfKind(files[..|files| - 1], k) + (if files[|files| - 1].kind == k then |files[|files| - 1].Rows()| else 0)
  }

  /** Replays the day: the consumer sees the whole-day merge, every row of every usable file is counted
      once under its own kind, and the summary's span is the day's first and last timestamp. */
  method Drive(source: seq<SourceFile>) returns (calls: seq<Call>, sum: Summary)
    ensures calls == Map(Deliver, WholeDay(Usable(source)))
    ensures exists order :: DayOrder(Usable(source), order) && CallsFor(Usable(source), order, calls)
    ensures sum.packets == RowsOfKind(Usable(source), Tick)
    ensures sum.depth == RowsOfKind(Usable(source), Depth)
    ensures sum.events == RowsOfKind(Usable(source), Event)
    ensures sum.firstTs.None? <==> Usable(source) == []
    ensures sum.lastTs.None? <==> Usable(source) == []
    ensures forall e :: FromDay(Usable(source), e) ==>
                          && sum.firstTs.Some? && sum.lastTs.Some?
                          && sum.firstTs.value <= e.ts <= sum.lastTs.value
    ensures sum.firstTs.Some? ==> exists e :: FromDay(Usable(source), e) && e.ts == sum.firstTs.value
    ensures sum.lastTs.Some? ==> exists e :: FromDay(Usable(source), e) && e.ts == sum.lastTs.value
  {
    hide WholeDay, DayOrder, CallsFor, FromDay, CountKind, RowsOfKind;
    var streams := FileStreams(source);
    var events := IterEvents(streams);
    calls, sum := Feed(events);
    KindCounts(streams, Tick);
    KindCounts(streams, Depth);
    KindCounts(streams, Event);
    DaySpan(streams);
    DayCalls(streams);
  }

  lemma DayCalls(files: seq<File>)
    ensures exists order :: DayOrder(files, order) && CallsFor(files, order, Map(Deliver, WholeDay(files)))
  {
    hide WholeDay, DayOrder;
    var order := WholeDayOrder(files);
    assert CallsFor(files, order, Map(Deliver, WholeDay(files)));
  }

  method Feed(events: seq<Emitted>) returns (calls: seq<Call>, sum: Summary)
    ensures calls == Map(Deliver, events)
    ensures sum.packets == CountKind(events, Tick)
    ensures sum.depth == CountKind(events, Depth)
    ensures sum.events == CountKind(events, Event)
    ensures sum.firstTs == if events == [] then None else Some(events[0].ts)
    ensures sum.lastTs == if events == [] then None else Some(events[|events| - 1].ts)
  {
    calls := [];
    sum := Summary(0, 0, 0, None, None);
    for n := 0 to |events|
      invariant calls == Map(Deliver, events)[..n]
      invariant sum.packets == CountKind(events[..n], Tick)
      invariant sum.depth == CountKind(events[..n], Depth)
      invariant sum.events == CountKind(events[..n], Event)
      invariant sum.firstTs == if n == 0 then None else Some(events[0].ts)
      invariant sum.lastTs == if n == 0 then None else Some(events[n - 1].ts)
    {
      var ev := events[n];
      assert events[..n + 1][..n] == events[..n];
      if sum.firstTs.None? {
        sum := sum.(firstTs := Some(ev.ts));
      }
      sum := sum.(lastTs := Some(ev.ts));
      if ev.kind == Tick {
        calls := calls + [OnPacket(ev.row, ev.ts)];
        sum := sum.(packets := sum.packets + 1);
      } else if ev.kind == Depth {
        calls := calls + [OnDepth(ev.row, ev.ts)];
        sum := sum.(depth := sum.depth + 1);
      } else {
        calls := calls + [OnEvent(ev.row)];
        sum := sum.(events := sum.events + 1);
      }
    }
    assert events[..|events|] == events;
  }

  lemma {:induction false} CountKindConcat(s: seq<Emitted>, t: seq<Emitted>, k: Kind)
    ensures CountKind(s + t, k) == CountKind(s, k) + CountKind(t, k)
  {
    if t == [] {
      assert s + t == s;
    } else {
      CountKindConcat(s, t[..|t| - 1], k);
      assert (s + t)[..|s + t| - 1] == s + t[..|t| - 1];
    }
  }

  function OfKind(k: Kind): Emitted -> int {
    (e: Emitted) => if e.kind == k then 1 else 0
  }

  lemma {:induction false} CountKindIsFold(s: seq<Emitted>, k: Kind)
    ensures CountKind(s, k) == Fold(s, OfKind(k), Add, 0)
  {
    if s != [] {
      CountKindIsFold(s[..|s| - 1], k);
    }
  }

  lemma CountKindMultiset(s: seq<Emitted>, t: seq<Emitted>, k: Kind)
    requires multiset(s) == multiset(t)
    ensures CountKind(s, k) == CountKind(t, k)
  {
    hide CountKind, Fold;
    CountKindIsFold(s, k);
    CountKindIsFold(t, k);
    AddCommutes();
    FoldPermuted(s, t, OfKind(k), Add, 0);
  }

  lemma {:induction false} RawCount(files: seq<File>, k: Kind)
    ensures CountKind(Flatten(RawEvents(files)), k) == RowsOfKind(files, k)
  {
    if files != [] {
      var n := |files| - 1;
      var last := RawEvents(files)[n];
      RawCount(files[..n], k);
      assert RawEvents(files) == RawEvents(files[..n]) + [last];
      FlattenSnoc(RawEvents(files[..n]), last);
      CountKindConcat(Flatten(RawEvents(files[..n])), last, k);
      SameKind(last, files[n].kind, k);
    }
  }

  lemma {:induction false} SameKind(s: seq<Emitted>, have: Kind, k: Kind)
    requires forall i :: 0 <= i < |s| ==> s[i].kind == have
    ensures CountKind(s, k) == if have == k then |s| else 0
  {
    if s != [] {
      SameKind(s[..|s| - 1], have, k);
    }
  }

  lemma KindCounts(streams: seq<File>, k: Kind)
    ensures CountKind(WholeDay(streams), k) == RowsOfKind(streams, k)
  {
    WholeDayMeaning(streams);
    CountKindMultiset(WholeDay(streams), Flatten(RawEvents(streams)), k);
    RawCount(streams, k);
  }

  lemma DaySpan(streams: seq<File>)
    requires forall f :: f in streams ==> f.Rows() != []
    ensures WholeDay(streams) == [] <==> streams == []
    ensures forall e :: FromDay(streams, e) ==>
                          var day := WholeDay(streams); day != [] && day[0].ts <= e.ts <= day[|day| - 1].ts
    ensures var day := WholeDay(streams); day != [] ==> FromDay(streams, day[0]) && FromDay(streams, day[|day| - 1])
  {
    hide WholeDay, InOrder;
    WholeDayMeaning(streams);
    if streams == [] {
      EmptyDay();
    } else {
      SomeEvent(streams);
    }
    forall e | FromDay(streams, e)
      ensures var day := WholeDay(streams); day != [] && day[0].ts <= e.ts <= day[|day| - 1].ts
    {
      WithinDay(streams, WholeDay(streams), e);
    }
  }

  lemma EmptyDay()
    ensures WholeDay([]) == []
  {
    assert SortedFiles([]) == [];
  }

  lemma SomeEvent(streams: seq<File>)
    requires streams != [] && forall f :: f in streams ==> f.Rows() != []
    ensures exists e :: FromDay(streams, e)
  {
    assert streams[0] in streams;
    var e := EventOf(0, streams[0].kind, streams[0].Rows()[0], 0);
    assert RowEvent(0, streams[0], e);
    assert FromDay(streams, e);
  }

  lemma WithinDay(streams: seq<File>, day: seq<Emitted>, e: Emitted)
    requires InOrder(day) && e in day && forall x :: x in day ==> FromDay(streams, x)
    ensures day[0].ts <= e.ts <= day[|day| - 1].ts
  {
    var last := |day| - 1;
    var i :| 0 <= i < |day| && day[i] == e;
    EventTs(streams, e);
    EventTs(streams, day[0]);
    EventTs(streams, day[last]);
    assert i == 0 || Before(KeyBefore, FileNo, day[0], day[i]);
    assert i == last || Before(KeyBefore, FileNo, day[i], day[last]);
  }
}

/** The heartbeat watchdog: silences of tracked instruments, opened by polls and closed by packets. */
module Watchdog {

  import opened Seqs

  type Sid = int

  datatype Gap = Gap(sid: Sid, start: int, end: int, openEnded: bool)

  datatype Op = Register(sid: Sid, seed: int) | Packet(sid: Sid, ts: int) | Poll(now: int) | CloseAll(end: int)

  function TimeOf(op: Op): int {
    match op
    case Register(_, seed) => seed
    case Packet(_, ts) => ts
    case Poll(now) => now
    case CloseAll(end) => end
  }

  /** The two dictionaries, each with its keys in insertion order. */
  datatype State = State(last: map<Sid, int>, tracked: seq<Sid>, open: map<Sid, int>, silent: seq<Sid>)

  const Fresh := State(map[], [], map[], [])

  ghost predicate KeysOf(keys: seq<Sid>, m: map<Sid, int>) {
    && Distinct(keys)
    && (forall k :: k in keys <==> k in m)
  }

  ghost predicate Valid(s: State) {
    KeysOf(s.tracked, s.last) && KeysOf(s.silent, s.open)
  }

  // ---------------------------------------------------------------- the dictionaries, step by step

  /** `d.pop(sid)` on the insertion order. */
  function Without(keys: seq<Sid>, sid: Sid): (r: seq<Sid>)
    ensures forall k :: k in r <==> k in keys && k != sid
  {
    if keys == [] then []
    else Without(keys[..|keys| - 1], sid) + if keys[|keys| - 1] == sid then [] else [keys[|keys| - 1]]
  }

  function AddKey(keys: seq<Sid>, m: map<Sid, int>, sid: Sid): seq<Sid> {
    if sid in m then keys else keys + [sid]
  }

  /** A poll visits the tracked instruments in order and opens those silent for longer than the threshold. */
  function Polled(s: State, thr: int, now: int, n: nat): (State, seq<Sid>)
    requires n <= |s.tracked| && forall k :: k in s.tracked ==> k in s.last
  {
    if n == 0 then (s, [])
    else
      var (t, newly) := Polled(s, thr, now, n - 1);
      var sid := s.tracked[n - 1];
      if sid !in t.open && now - s.last[sid] > thr then
        (t.(open := t.open[sid := s.last[sid]], silent := t.silent + [sid]), newly + [sid])
      else (t, newly)
  }

  function OnRegister(s: State, sid: Sid, seed: int): State {
    if sid in s.last then s else s.(last := s.last[sid := seed], tracked := s.tracked + [sid])
  }

  function OnPacket(s: State, sid: Sid, ts: int): State {
    s.(last := s.last[sid := ts], tracked := AddKey(s.tracked, s.last, sid),
       open := s.open - {sid}, silent := if sid in s.open then Without(s.silent, sid) else s.silent)
  }

  function Step(thr: int, s: State, op: Op): State
    requires forall k :: k in s.tracked ==> k in s.last
  {
    match op
    case Register(sid, seed) => OnRegister(s, sid, seed)
    case Packet(sid, ts) => OnPacket(s, sid, ts)
    case Poll(now) => Polled(s, thr, now, |s.tracked|).0
    case CloseAll(_) => s.(open := map[], silent := [])
  }

  // ---------------------------------------------------------------- one instrument at a time

  /** What the watchdog knows of one instrument. */
  datatype Track = Track(last: Option<int>, open: Option<int>)

  function At(s: State, sid: Sid): Track {
    Track(if sid in s.last then Some(s.last[sid]) else None, if sid in s.open then Some(s.open[sid]) else None)
  }

  predicate Late(thr: int, t: Track, now: int) {
    t.last.Some? && now - t.last.value > thr
  }

  function StepOne(thr: int, sid: Sid, t: Track, op: Op): Track {
    match op
    case Register(k, seed) => if k == sid && t.last.None? then t.(last := Some(seed)) else t
    case Packet(k, ts) => if k == sid then Track(Some(ts), None) else t
    case Poll(now) => if t.open.None? && Late(thr, t, now) then t.(open := t.last) else t
    case CloseAll(_) => t.(open := None)
  }

  lemma {:induction false} PolledOne(s: State, thr: int, now: int, n: nat, sid: Sid)
    requires Valid(s) && n <= |s.tracked|
    ensures var (t, newly) := Polled(s, thr, now, n);
            && KeysOf(t.silent, t.open) && t.last == s.last && t.tracked == s.tracked
            && At(t, sid) == (if sid in s.tracked[..n] then StepOne(thr, sid, At(s, sid), Poll(now)) else At(s, sid))
            && (sid in newly <==> sid in s.tracked[..n] && sid !in s.open && Late(thr, At(s, sid), now))
  {
    if n > 0 {
      var next := s.tracked[n - 1];
      PolledOne(s, thr, now, n - 1, sid);
      PolledOne(s, thr, now, n - 1, next);
      assert s.tracked[..n] == s.tracked[..n - 1] + [next];
      var t := Polled(s, thr, now, n - 1).0;
      assert next in s.tracked && next !in s.tracked[..n - 1];
      KeysSnoc(t.silent, t.open, next, s.last[next]);
      hide KeysOf;
    }
  }

  lemma KeysSnoc(keys: seq<Sid>, m: map<Sid, int>, sid: Sid, v: int)
    requires KeysOf(keys, m)
    ensures sid !in m ==> KeysOf(keys + [sid], m[sid := v])
  {
    if sid !in m {
      var more := keys + [sid];
      forall i, j | 0 <= i < j < |more| ensures more[i] != more[j] {
        assert keys[i] in keys;
      }
    }
  }

  lemma {:induction false} WithoutDistinct(keys: seq<Sid>, sid: Sid)
    requires Distinct(keys)
    ensures Distinct(Without(keys, sid))
  {
    if keys != [] {
      var n := |keys| - 1;
      WithoutDistinct(keys[..n], sid);
      var r := Without(keys[..n], sid);
      forall i | 0 <= i < |r| ensures r[i] != keys[n] {
        assert r[i] in r;
      }
    }
  }

  /** Every step keeps the keys in order and treats each instrument by itself. */
  lemma StepIsLocal(thr: int, s: State, op: Op, sid: Sid)
    requires Valid(s)
    ensures Valid(Step(thr, s, op))
    ensures At(Step(thr, s, op), sid) == StepOne(thr, sid, At(s, sid), op)
  {
    match op
    case Register(k, seed) => KeysSnoc(s.tracked, s.last, k, seed);
    case Packet(k, ts) =>
      KeysSnoc(s.tracked, s.last, k, ts);
      WithoutDistinct(s.silent, k);
    case Poll(now) =>
      PolledOne(s, thr, now, |s.tracked|, sid);
      assert s.tracked[..|s.tracked|] == s.tracked;
    case CloseAll(_) =>
  }

  ghost function Run(thr: int, ops: seq<Op>): (s: State)
    ensures Valid(s)
  {
    if ops == [] then Fresh
    else
      var s := Run(thr, ops[..|ops| - 1]);
      StepIsLocal(thr, s, ops[|ops| - 1], 0);
      Step(thr, s, ops[|ops| - 1])
  }

  // ---------------------------------------------------------------- whole runs

  ghost predicate InTimeOrder(ops: seq<Op>) {
    forall i, j :: 0 <= i < j < |ops| ==> TimeOf(ops[i]) <= TimeOf(ops[j])
  }

  predicate Heard(op: Op, sid: Sid) {
    op.Packet? && op.sid == sid
  }

  /** Where the present silence of an instrument began: its last packet, or the seed of its first
      registration when no packet has come. */
  ghost function Mark(ops: seq<Op>, sid: Sid): (m: Option<nat>)
    ensures m.Some? ==> m.value < |ops|
  {
    if ops == [] then None
    else
      var n := |ops| - 1;
      var before := Mark(ops[..n], sid);
      if Heard(ops[n], sid) || (ops[n].Register? && ops[n].sid == sid && before.None?) then Some(n) else before
  }

  /** The point after which a poll may open the silence: its mark, or a later closing of all gaps. */
  ghost function Since(ops: seq<Op>, sid: Sid): (m: nat)
    requires Mark(ops, sid).Some?
    ensures Mark(ops, sid).value <= m < |ops|
  {
    var n := |ops| - 1;
    if Mark(ops, sid).value == n || ops[n].CloseAll? then n else Since(ops[..n], sid)
  }

  ghost predicate LatePoll(thr: int, start: int, op: Op) {
    op.Poll? && op.now - start > thr
  }

  ghost predicate SomeLate(thr: int, start: int, ops: seq<Op>, from: int) {
    exists k :: 0 <= k < |ops| && from < k && LatePoll(thr, start, ops[k])
  }

  lemma SomeLateSnoc(thr: int, start: int, ops: seq<Op>, from: nat)
    requires ops != [] && from < |ops| - 1
    ensures SomeLate(thr, start, ops, from) <==>
            SomeLate(thr, start, ops[..|ops| - 1], from) || LatePoll(thr, start, ops[|ops| - 1])
  {
    var n := |ops| - 1;
    if k :| 0 <= k < |ops| && from < k && LatePoll(thr, start, ops[k]) {
      assert k < n ==> LatePoll(thr, start, ops[..n][k]);
    }
    if k :| 0 <= k < |ops[..n]| && from < k && LatePoll(thr, start, ops[..n][k]) {
      assert LatePoll(thr, start, ops[k]);
    }
  }

  lemma MarkMeans(ops: seq<Op>, sid: Sid)
    requires Mark(ops, sid).Some?
    ensures var m := Mark(ops, sid).value;
            && (Heard(ops[m], sid) || (ops[m].Register? && ops[m].sid == sid))
            && forall k :: m < k < |ops| ==> !Heard(ops[k], sid)
  {
    var n := |ops| - 1;
    if Mark(ops[..n], sid).Some? {
      MarkMeans(ops[..n], sid);
      forall k | Mark(ops, sid).value < k < n ensures !Heard(ops[k], sid) {
        assert ops[..n][k] == ops[k];
      }
    }
  }

  /** What a run knows of an instrument: the time of its mark, and an open gap from there exactly when a
      poll since has found it silent for longer than the threshold. */
  lemma {:induction false} TrackOfRun(thr: int, ops: seq<Op>, sid: Sid)
    ensures var t, m := At(Run(thr, ops), sid), Mark(ops, sid);
            if m.None? then t == Track(None, None)
            else
              var start := TimeOf(ops[m.value]);
              t == Track(Some(start), if SomeLate(thr, start, ops, Since(ops, sid)) then Some(start) else None)
  {
    if ops != [] {
      hide Step;
      var n := |ops| - 1;
      var s := Run(thr, ops[..n]);
      TrackOfRun(thr, ops[..n], sid);
      StepIsLocal(thr, s, ops[n], sid);
      var m := Mark(ops, sid);
      if m.Some? && m.value < n {
        assert ops[m.value] == ops[..n][m.value];
        if !ops[n].CloseAll? {
          SomeLateSnoc(thr, TimeOf(ops[m.value]), ops, Since(ops, sid));
        }
      }
    }
  }

  // ---------------------------------------------------------------- what is reported

  /** What a packet returns. */
  function PacketGap(s: State, sid: Sid, ts: int): Option<Gap> {
    if sid in s.open then Some(Gap(sid, s.open[sid], ts, false)) else None
  }

  /** A packet reports a gap exactly when a poll found its silence too long, and the gap then runs from the
      last packet or seed to this packet; in a time-ordered run it is longer than the threshold. */
  lemma PacketReports(thr: int, ops: seq<Op>, i: nat)
    requires i < |ops| && ops[i].Packet?
    ensures var sid, before := ops[i].sid, ops[..i];
            var gap, m := PacketGap(Run(thr, before), sid, ops[i].ts), Mark(before, sid);
            && (gap.Some? <==> m.Some? && SomeLate(thr, TimeOf(ops[m.value]), before, Since(before, sid)))
            && (gap.Some? ==>
                  && gap.value == Gap(sid, TimeOf(ops[m.value]), ops[i].ts, false)
                  && (Heard(ops[m.value], sid) || (ops[m.value].Register? && ops[m.value].sid == sid))
                  && (forall k :: m.value < k < i ==> !Heard(ops[k], sid))
                  && (InTimeOrder(ops) ==> gap.value.end - gap.value.start > thr))
  {
    hide Run;
    var sid, before := ops[i].sid, ops[..i];
    TrackOfRun(thr, before, sid);
    var m := Mark(before, sid);
    if m.Some? {
      MarkMeans(before, sid);
      var start := TimeOf(before[m.value]);
      forall k | m.value < k < i ensures !Heard(ops[k], sid) {
        assert before[k] == ops[k];
      }
      if SomeLate(thr, start, before, Since(before, sid)) {
        var k :| 0 <= k < |before| && Since(before, sid) < k && LatePoll(thr, start, before[k]);
        assert TimeOf(ops[k]) == before[k].now;
      }
    }
  }

  /** Poll `k` opens a gap for the instrument. */
  ghost predicate Opens(thr: int, ops: seq<Op>, k: nat, sid: Sid)
    requires k < |ops| && ops[k].Poll?
  {
    sid in Polled(Run(thr, ops[..k]), thr, ops[k].now, |Run(thr, ops[..k]).tracked|).1
  }

  lemma MarkStays(ops: seq<Op>, k: nat, sid: Sid)
    requires Mark(ops, sid).Some? && Since(ops, sid) < k <= |ops|
    ensures Mark(ops[..k], sid) == Mark(ops, sid) && Since(ops[..k], sid) == Since(ops, sid)
    decreases |ops| - k
  {
    if k < |ops| {
      var n := |ops| - 1;
      assert Since(ops, sid) < n;
      assert ops[..n][..k] == ops[..k];
      MarkStays(ops[..n], k, sid);
    } else {
      assert ops[..k] == ops;
    }
  }

  /** Of the polls since the silence could be opened, exactly the first late one opens it. */
  lemma FirstLatePollOpens(thr: int, ops: seq<Op>, k: nat, sid: Sid)
    requires Mark(ops, sid).Some? && Since(ops, sid) < k < |ops| && ops[k].Poll?
    ensures var start := TimeOf(ops[Mark(ops, sid).value]);
            Opens(thr, ops, k, sid) <==> LatePoll(thr, start, ops[k]) && !SomeLate(thr, start, ops[..k], Since(ops, sid))
  {
    MarkStays(ops, k, sid);
    TrackOfRun(thr, ops[..k], sid);
    var s := Run(thr, ops[..k]);
    PolledOne(s, thr, ops[k].now, |s.tracked|, sid);
    assert s.tracked[..|s.tracked|] == s.tracked;
    assert ops[..k][Mark(ops, sid).value] == ops[Mark(ops, sid).value];
  }

  /** While the instrument stays silent, polls come at most `gap` apart up to the time `until`. */
  ghost predicate PolledEvery(ops: seq<Op>, from: nat, start: int, until: int, gap: int) {
    forall x: int {:trigger PollWithin(ops, from, x, gap)} :: start <= x && x + gap < until ==> PollWithin(ops, from, x, gap)
  }

  ghost predicate PollWithin(ops: seq<Op>, from: nat, x: int, gap: int) {
    exists k :: 0 <= k < |ops| && from < k && ops[k].Poll? && x < ops[k].now <= x + gap
  }

  /** With polls at most `p` apart, a silence longer than the threshold plus `p` that a packet ends is
      opened by exactly one poll and reported by that packet. */
  lemma LongSilenceReportedOnce(thr: int, ops: seq<Op>, i: nat, p: int)
    requires i < |ops| && ops[i].Packet? && thr >= 0
    requires var sid, before := ops[i].sid, ops[..i];
             && Mark(before, sid).Some?
             && PolledEvery(before, Since(before, sid), TimeOf(ops[Mark(before, sid).value]), ops[i].ts, p)
             && ops[i].ts - TimeOf(ops[Mark(before, sid).value]) > thr + p
    ensures var sid, before := ops[i].sid, ops[..i];
            var from := Since(before, sid);
            && PacketGap(Run(thr, before), sid, ops[i].ts) == Some(Gap(sid, TimeOf(ops[Mark(before, sid).value]), ops[i].ts, false))
            && (exists k :: from < k < i && ops[k].Poll? && Opens(thr, before, k, sid))
            && (forall j, k :: from < j < k < i && ops[j].Poll? && ops[k].Poll? && Opens(thr, before, j, sid) ==>
                               !Opens(thr, before, k, sid))
  {
    hide Run, Opens;
    var sid, before := ops[i].sid, ops[..i];
    var from, start := Since(before, sid), TimeOf(before[Mark(before, sid).value]);
    assert PollWithin(before, from, start + thr, p);
    var late :| 0 <= late < |before| && from < late && before[late].Poll? && start + thr < before[late].now <= start + thr + p;
    assert LatePoll(thr, start, before[late]);
    assert SomeLate(thr, start, before, from);
    PacketReports(thr, ops, i);
    var first := FirstLate(thr, start, before, from, late);
    FirstLatePollOpens(thr, before, first, sid);
    forall j, k | from < j < k < i && ops[j].Poll? && ops[k].Poll? && Opens(thr, before, j, sid)
      ensures !Opens(thr, before, k, sid)
    {
      OpensOnce(thr, before, j, k, sid);
    }
  }

  lemma OpensOnce(thr: int, ops: seq<Op>, j: nat, k: nat, sid: Sid)
    requires Mark(ops, sid).Some? && Since(ops, sid) < j < k < |ops| && ops[j].Poll? && ops[k].Poll?
    requires Opens(thr, ops, j, sid)
    ensures !Opens(thr, ops, k, sid)
  {
    hide Opens;
    FirstLatePollOpens(thr, ops, j, sid);
    FirstLatePollOpens(thr, ops, k, sid);
    var start := TimeOf(ops[Mark(ops, sid).value]);
    assert LatePoll(thr, start, ops[..k][j]);
  }

  lemma {:induction false} FirstLate(thr: int, start: int, ops: seq<Op>, from: nat, late: nat) returns (first: nat)
    requires from < late < |ops| && LatePoll(thr, start, ops[late])
    ensures from < first <= late && LatePoll(thr, start, ops[first]) && !SomeLate(thr, start, ops[..first], from)
    decreases late
  {
    if SomeLate(thr, start, ops[..late], from) {
      var k :| 0 <= k < |ops[..late]| && from < k && LatePoll(thr, start, ops[..late][k]);
      assert ops[..late][k] == ops[k];
      first := FirstLate(thr, start, ops, from, k);
    } else {
      first := late;
    }
  }

  // ---------------------------------------------------------------- closing the session

  function Closing(s: State, end: int, n: nat): (r: seq<Gap>)
    requires n <= |s.silent| && forall k :: k in s.silent ==> k in s.open
    ensures |r| == n
    ensures forall i :: 0 <= i < n ==> s.silent[i] in s.open && r[i] == Gap(s.silent[i], s.open[s.silent[i]], end, true)
  {
    if n == 0 then [] else Closing(s, end, n - 1) + [Gap(s.silent[n - 1], s.open[s.silent[n - 1]], end, true)]
  }

  /** At session end every silence a poll found too long, and that no packet ended, is reported once more
      and once only. */
  lemma ClosingReports(thr: int, ops: seq<Op>, end: int, sid: Sid)
    ensures var s := Run(thr, ops);
            var out := Closing(s, end, |s.silent|);
            && (forall i, j :: 0 <= i < j < |out| ==> out[i].sid != out[j].sid)
            && ((exists i :: 0 <= i < |out| && out[i].sid == sid) <==>
                Mark(ops, sid).Some? && SomeLate(thr, TimeOf(ops[Mark(ops, sid).value]), ops, Since(ops, sid)))
            && forall i :: 0 <= i < |out| && out[i].sid == sid && Mark(ops, sid).Some? ==>
                 out[i] == Gap(sid, TimeOf(ops[Mark(ops, sid).value]), end, true)
  {
    TrackOfRun(thr, ops, sid);
    var s := Run(thr, ops);
    hide Run;
    var out := Closing(s, end, |s.silent|);
    if sid in s.open {
      assert sid in s.silent;
      var i :| 0 <= i < |s.silent| && s.silent[i] == sid;
      assert out[i].sid == sid;
    }
    forall i | 0 <= i < |out| ensures out[i].sid in s.open {
      assert s.silent[i] in s.silent;
    }
  }

  /** With polls at most `p` apart, a silence longer than the threshold plus `p` that lasts to the end of the
      session is reported then, exactly once. */
  lemma LongSilenceAtEnd(thr: int, ops: seq<Op>, end: int, sid: Sid, p: int)
    requires thr >= 0 && Mark(ops, sid).Some?
    requires PolledEvery(ops, Since(ops, sid), TimeOf(ops[Mark(ops, sid).value]), end, p)
    requires end - TimeOf(ops[Mark(ops, sid).value]) > thr + p
    ensures var s := Run(thr, ops);
            var out := Closing(s, end, |s.silent|);
            && (exists i :: 0 <= i < |out| && out[i] == Gap(sid, TimeOf(ops[Mark(ops, sid).value]), end, true))
            && forall i, j :: 0 <= i < j < |out| ==> out[i].sid != out[j].sid
  {
    hide Run;
    var from, start := Since(ops, sid), TimeOf(ops[Mark(ops, sid).value]);
    assert PollWithin(ops, from, start + thr, p);
    var late :| 0 <= late < |ops| && from < late && ops[late].Poll? && start + thr < ops[late].now <= start + thr + p;
    assert LatePoll(thr, start, ops[late]);
    ClosingReports(thr, ops, end, sid);
  }

  // ---------------------------------------------------------------- the object

  class Heartbeat {
    const thresholdNs: int
    var last: map<Sid, int>
    var tracked: seq<Sid>
    var open: map<Sid, int>
    var silent: seq<Sid>

    function View(): State
      reads this
    {
      State(last, tracked, open, silent)
    }

    constructor (thresholdNs: int)
      ensures this.thresholdNs == thresholdNs && View() == Fresh && Valid(View())
    {
      this.thresholdNs := thresholdNs;
      last, tracked, open, silent := map[], [], map[], [];
    }

    method Register(sid: Sid, seed: int)
      requires Valid(View())
      modifies this
      ensures View() == Step(thresholdNs, old(View()), Op.Register(sid, seed)) && Valid(View())
    {
      StepIsLocal(thresholdNs, View(), Op.Register(sid, seed), sid);
      if sid !in last {
        last, tracked := last[sid := seed], tracked + [sid];
      }
    }

    method OnPacket(sid: Sid, ts: int) returns (gap: Option<Gap>)
      requires Valid(View())
      modifies this
      ensures View() == Step(thresholdNs, old(View()), Packet(sid, ts)) && Valid(View())
      ensures gap == PacketGap(old(View()), sid, ts)
    {
      StepIsLocal(thresholdNs, View(), Packet(sid, ts), sid);
      gap := None;
      if sid in open {
        gap := Some(Gap(sid, open[sid], ts, false));
        open, silent := open - {sid}, Without(silent, sid);
      } else {
        assert open - {sid} == open;
      }
      if sid !in last {
        tracked := tracked + [sid];
      }
      last := last[sid := ts];
    }

    method Poll(now: int) returns (newly: seq<Sid>)
      requires Valid(View())
      modifies this
      ensures View() == Step(thresholdNs, old(View()), Op.Poll(now)) && Valid(View())
      ensures newly == Polled(old(View()), thresholdNs, now, |old(tracked)|).1
    {
      StepIsLocal(thresholdNs, View(), Op.Poll(now), 0);
      ghost var was := View();
      newly := [];
      for i := 0 to |tracked|
        invariant last == was.last && tracked == was.tracked
        invariant (View(), newly) == Polled(was, thresholdNs, now, i)
      {
        var sid := tracked[i];
        assert sid in tracked;
        if sid !in open {
          if now - last[sid] > thresholdNs {
            open, silent, newly := open[sid := last[sid]], silent + [sid], newly + [sid];
          }
        }
      }
    }

    method CloseAll(end: int) returns (out: seq<Gap>)
      requires Valid(View())
      modifies this
      ensures View() == Step(thresholdNs, old(View()), Op.CloseAll(end)) && Valid(View())
      ensures out == Closing(old(View()), end, |old(silent)|)
    {
      out := [];
      for i := 0 to |silent|
        invariant Valid(View()) && View() == old(View()) && out == Closing(View(), end, i)
      {
        var sid := silent[i];
        assert sid in silent && sid in open;
        out := out + [Gap(sid, open[sid], end, true)];
      }
      open, silent := map[], [];
    }
  }
}

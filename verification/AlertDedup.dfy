/** Alert suppression: exact repeats, cooldown, spacing and the daily cap, over runs with restarts. */
module AlertDedup {

  import opened Seqs

  /** A candidate alert; time is the signal's own, in seconds. */
  datatype Candidate = Candidate(instrument: string, side: string, barTs: int, now: real)

  datatype Config = Config(cooldownSec: real, minGapSec: real, maxPerDay: int, persistState: bool)

  datatype Reason = ExactDup | Cooldown | MinGap | MaxPerDay

  type Exact = (string, string, int)

  function ExactOf(c: Candidate): Exact {
    (c.instrument, c.side, c.barTs)
  }

  function Key(c: Candidate): string {
    c.instrument + "|" + c.side
  }

  /** What the deduper remembers, in memory and in its state file. */
  datatype Memory = Memory(seen: set<Exact>, lastSide: map<string, real>, lastSend: Option<real>, count: nat)

  const Empty := Memory({}, map[], None, 0)

  function Verdict(cfg: Config, m: Memory, c: Candidate): Option<Reason> {
    if ExactOf(c) in m.seen then Some(ExactDup)
    else if Key(c) in m.lastSide && c.now - m.lastSide[Key(c)] < cfg.cooldownSec then Some(Cooldown)
    else if m.lastSend.Some? && c.now - m.lastSend.value < cfg.minGapSec then Some(MinGap)
    else if m.count >= cfg.maxPerDay then Some(MaxPerDay)
    else None
  }

  function Recorded(m: Memory, c: Candidate): Memory {
    Memory(m.seen + {ExactOf(c)}, m.lastSide[Key(c) := c.now], Some(c.now), m.count + 1)
  }

  // ---------------------------------------------------------------- what the guards promise

  ghost predicate Apart(cfg: Config, a: Candidate, b: Candidate) {
    && b.now - a.now >= cfg.minGapSec
    && (Key(a) == Key(b) ==> b.now - a.now >= cfg.cooldownSec)
    && ExactOf(a) != ExactOf(b)
  }

  /** The alerts sent so far: spaced, cooled down, never repeated, and within the cap. */
  ghost predicate Obeys(cfg: Config, sent: seq<Candidate>) {
    && (forall i, j :: 0 <= i < j < |sent| ==> Apart(cfg, sent[i], sent[j]))
    && |sent| <= cfg.maxPerDay
  }

  ghost predicate NonNegative(cfg: Config) {
    cfg.cooldownSec >= 0.0 && cfg.minGapSec >= 0.0 && cfg.maxPerDay >= 0
  }

  /** What remembering exactly these alerts amounts to. */
  ghost function MemoryOf(sent: seq<Candidate>): Memory {
    if sent == [] then Empty else Recorded(MemoryOf(sent[..|sent| - 1]), sent[|sent| - 1])
  }

  lemma MemoryMeans(sent: seq<Candidate>, c: Candidate)
    ensures var m := MemoryOf(sent);
            && m.count == |sent|
            && m.lastSend == (if sent == [] then None else Some(sent[|sent| - 1].now))
            && (ExactOf(c) in m.seen <==> exists i :: 0 <= i < |sent| && ExactOf(sent[i]) == ExactOf(c))
            && (Key(c) in m.lastSide <==> exists i :: 0 <= i < |sent| && Key(sent[i]) == Key(c))
            && (Key(c) in m.lastSide ==> exists i :: 0 <= i < |sent| && Newest(sent, Key(c), i) && sent[i].now == m.lastSide[Key(c)])
  {
    CountMeans(sent);
    SeenMeans(sent, ExactOf(c));
    LastSideMeans(sent, Key(c));
  }

  lemma {:induction false} CountMeans(sent: seq<Candidate>)
    ensures MemoryOf(sent).count == |sent|
  {
    if sent != [] {
      CountMeans(sent[..|sent| - 1]);
    }
  }

  lemma {:induction false} SeenMeans(sent: seq<Candidate>, x: Exact)
    ensures x in MemoryOf(sent).seen <==> exists i :: 0 <= i < |sent| && ExactOf(sent[i]) == x
  {
    if sent != [] {
      hide Key, ExactOf;
      var n := |sent| - 1;
      var before := sent[..n];
      SeenMeans(before, x);
      if i :| 0 <= i < |before| && ExactOf(before[i]) == x {
        assert ExactOf(sent[i]) == x;
      }
      if i :| 0 <= i < |sent| && ExactOf(sent[i]) == x {
        assert i < n ==> ExactOf(before[i]) == x;
      }
    }
  }

  lemma {:induction false} LastSideMeans(sent: seq<Candidate>, key: string)
    ensures var m := MemoryOf(sent);
            && (key in m.lastSide <==> exists i :: 0 <= i < |sent| && Key(sent[i]) == key)
            && (key in m.lastSide ==> exists i :: 0 <= i < |sent| && Newest(sent, key, i) && sent[i].now == m.lastSide[key])
  {
    if sent != [] {
      hide Key, ExactOf;
      var n := |sent| - 1;
      var before := sent[..n];
      LastSideMeans(before, key);
      var was := MemoryOf(before);
      if i :| 0 <= i < |sent| && Key(sent[i]) == key {
        assert i < n ==> Key(before[i]) == key;
      }
      if Key(sent[n]) == key {
        assert Newest(sent, key, n);
      } else if key in was.lastSide {
        var i :| 0 <= i < |before| && Newest(before, key, i) && before[i].now == was.lastSide[key];
        assert Key(sent[i]) == key;
        forall j | i < j < |sent| ensures Key(sent[j]) != key {
          assert j < n ==> before[j] == sent[j];
        }
        assert Newest(sent, key, i);
      }
    }
  }

  ghost predicate Newest(sent: seq<Candidate>, key: string, i: int) {
    0 <= i < |sent| && Key(sent[i]) == key && forall j :: i < j < |sent| ==> Key(sent[j]) != key
  }

  lemma ObeysSnoc(cfg: Config, sent: seq<Candidate>, c: Candidate)
    requires Obeys(cfg, sent)
    ensures Obeys(cfg, sent + [c]) <==> (forall i :: 0 <= i < |sent| ==> Apart(cfg, sent[i], c)) && |sent| < cfg.maxPerDay
  {
    var more := sent + [c];
    if Obeys(cfg, more) {
      forall i | 0 <= i < |sent| ensures Apart(cfg, sent[i], c) {
        assert Apart(cfg, more[i], more[|sent|]);
      }
    }
  }

  /** The newest alert with the key is the one that binds. */
  lemma CooledDown(cfg: Config, sent: seq<Candidate>, c: Candidate, n: nat)
    requires NonNegative(cfg) && Obeys(cfg, sent) && Newest(sent, Key(c), n)
    ensures c.now - sent[n].now >= cfg.cooldownSec <==>
            forall i :: 0 <= i < |sent| && Key(sent[i]) == Key(c) ==> c.now - sent[i].now >= cfg.cooldownSec
  {
    hide Key, ExactOf;
    if c.now - sent[n].now >= cfg.cooldownSec {
      forall i | 0 <= i < |sent| && Key(sent[i]) == Key(c) ensures c.now - sent[i].now >= cfg.cooldownSec {
        assert i < n ==> Apart(cfg, sent[i], sent[n]);
      }
    }
  }

  /** The last alert is the one that binds for the spacing. */
  lemma SpacedOut(cfg: Config, sent: seq<Candidate>, c: Candidate)
    requires NonNegative(cfg) && Obeys(cfg, sent) && sent != []
    ensures c.now - sent[|sent| - 1].now >= cfg.minGapSec <==>
            forall i :: 0 <= i < |sent| ==> c.now - sent[i].now >= cfg.minGapSec
  {
    hide Key, ExactOf;
    var n := |sent| - 1;
    if c.now - sent[n].now >= cfg.minGapSec {
      forall i | 0 <= i < |sent| ensures c.now - sent[i].now >= cfg.minGapSec {
        assert i < n ==> Apart(cfg, sent[i], sent[n]);
      }
    }
  }

  /** The guards let a candidate through exactly when sending it keeps every promise. */
  lemma VerdictExact(cfg: Config, sent: seq<Candidate>, c: Candidate)
    requires NonNegative(cfg) && Obeys(cfg, sent)
    ensures Verdict(cfg, MemoryOf(sent), c).None? <==> Obeys(cfg, sent + [c])
  {
    hide Key, ExactOf, Obeys, MemoryOf, Newest;
    var m := MemoryOf(sent);
    MemoryMeans(sent, c);
    ObeysSnoc(cfg, sent, c);
    if sent != [] {
      SpacedOut(cfg, sent, c);
    }
    if Key(c) in m.lastSide {
      var n :| 0 <= n < |sent| && Newest(sent, Key(c), n) && sent[n].now == m.lastSide[Key(c)];
      CooledDown(cfg, sent, c, n);
    }
    SplitApart(cfg, sent, c);
  }

  lemma SplitApart(cfg: Config, sent: seq<Candidate>, c: Candidate)
    ensures (forall i :: 0 <= i < |sent| ==> Apart(cfg, sent[i], c)) <==>
            && (forall i :: 0 <= i < |sent| ==> c.now - sent[i].now >= cfg.minGapSec)
            && (forall i :: 0 <= i < |sent| && Key(sent[i]) == Key(c) ==> c.now - sent[i].now >= cfg.cooldownSec)
            && !(exists i :: 0 <= i < |sent| && ExactOf(sent[i]) == ExactOf(c))
  {
    hide Key, ExactOf;
    if forall i :: 0 <= i < |sent| ==> Apart(cfg, sent[i], c) {
      forall i | 0 <= i < |sent| ensures ExactOf(sent[i]) != ExactOf(c) && c.now - sent[i].now >= cfg.minGapSec {
        assert Apart(cfg, sent[i], c);
      }
      forall i | 0 <= i < |sent| && Key(sent[i]) == Key(c) ensures c.now - sent[i].now >= cfg.cooldownSec {
        assert Apart(cfg, sent[i], c);
      }
    }
  }

  /** Two alerts repeat each other exactly when instrument, side and bar are the same. */
  lemma RepeatMeans(a: Candidate, b: Candidate)
    ensures ExactOf(a) == ExactOf(b) <==> a.instrument == b.instrument && a.side == b.side && a.barTs == b.barTs
  {
  }

  /** Why a candidate is held back, by the alerts sent: a repeat; else too soon after one of its key; else too
      soon after any; else the cap. */
  lemma ReasonExact(cfg: Config, sent: seq<Candidate>, c: Candidate)
    requires NonNegative(cfg) && Obeys(cfg, sent)
    ensures var v := Verdict(cfg, MemoryOf(sent), c);
            var repeats := exists i :: 0 <= i < |sent| && ExactOf(sent[i]) == ExactOf(c);
            var hot := exists i :: 0 <= i < |sent| && Key(sent[i]) == Key(c) && c.now - sent[i].now < cfg.cooldownSec;
            var close := exists i :: 0 <= i < |sent| && c.now - sent[i].now < cfg.minGapSec;
            && (v == Some(ExactDup) <==> repeats)
            && (v == Some(Cooldown) <==> !repeats && hot)
            && (v == Some(MinGap) <==> !repeats && !hot && close)
            && (v == Some(MaxPerDay) <==> !repeats && !hot && !close && |sent| >= cfg.maxPerDay)
  {
    hide Key, ExactOf, MemoryOf, Newest;
    MemoryMeans(sent, c);
    NewestHot(cfg, sent, c);
    LastClose(cfg, sent, c);
    hide Obeys, Apart;
  }

  lemma LastClose(cfg: Config, sent: seq<Candidate>, c: Candidate)
    requires NonNegative(cfg) && Obeys(cfg, sent)
    ensures (exists i :: 0 <= i < |sent| && c.now - sent[i].now < cfg.minGapSec) <==>
            sent != [] && c.now - sent[|sent| - 1].now < cfg.minGapSec
  {
    hide Key, ExactOf;
    if i :| 0 <= i < |sent| && c.now - sent[i].now < cfg.minGapSec {
      assert i < |sent| - 1 ==> Apart(cfg, sent[i], sent[|sent| - 1]);
    }
  }

  lemma NewestHot(cfg: Config, sent: seq<Candidate>, c: Candidate)
    requires NonNegative(cfg) && Obeys(cfg, sent)
    ensures var m := MemoryOf(sent);
            (Key(c) in m.lastSide && c.now - m.lastSide[Key(c)] < cfg.cooldownSec) <==>
            exists i :: 0 <= i < |sent| && Key(sent[i]) == Key(c) && c.now - sent[i].now < cfg.cooldownSec
  {
    hide Key, ExactOf, MemoryOf;
    var m := MemoryOf(sent);
    MemoryMeans(sent, c);
    if Key(c) in m.lastSide {
      var n :| 0 <= n < |sent| && Newest(sent, Key(c), n) && sent[n].now == m.lastSide[Key(c)];
      if i :| 0 <= i < |sent| && Key(sent[i]) == Key(c) && c.now - sent[i].now < cfg.cooldownSec {
        assert i <= n;
        assert i < n ==> Apart(cfg, sent[i], sent[n]);
      }
    }
  }

  /** A key stands for one instrument and side as long as sides are free of the separator. */
  lemma KeyIsPair(a: Candidate, b: Candidate)
    requires '|' !in a.side && '|' !in b.side && Key(a) == Key(b)
    ensures a.instrument == b.instrument && a.side == b.side
  {
    var x, y, k := |a.instrument|, |b.instrument|, Key(a);
    assert k[x] == '|' && k[y] == '|';
    assert forall i :: x < i < |k| ==> k[i] == a.side[i - x - 1];
    assert forall i :: y < i < |k| ==> Key(b)[i] == b.side[i - y - 1];
    assert x == y;
    assert a.instrument == k[..x] && b.instrument == k[..y];
    assert a.side == k[x + 1..] && b.side == k[y + 1..];
  }

  // ---------------------------------------------------------------- whole runs

  /** A candidate and whether the transport would deliver it, or a new process reading the state file. */
  datatype Op = Offer(c: Candidate, delivered: bool) | Restart

  /** The state file: none yet, what was saved, or something no reader accepts. */
  datatype File = Missing | Corrupt | Saved(memory: Memory)

  datatype World = World(memory: Memory, file: File, sent: seq<Candidate>)

  function Loaded(cfg: Config, file: File): Memory {
    if cfg.persistState && file.Saved? then file.memory else Empty
  }

  function Step(cfg: Config, w: World, op: Op): World {
    match op
    case Offer(c, delivered) =>
      if Verdict(cfg, w.memory, c).None? && delivered then
        var m := Recorded(w.memory, c);
        World(m, if cfg.persistState then Saved(m) else w.file, w.sent + [c])
      else w
    case Restart => w.(memory := Loaded(cfg, w.file))
  }

  ghost function Run(cfg: Config, ops: seq<Op>): World {
    RunFrom(cfg, World(Empty, Missing, []), ops)
  }

  ghost function RunFrom(cfg: Config, w: World, ops: seq<Op>): World {
    if ops == [] then w else Step(cfg, RunFrom(cfg, w, ops[..|ops| - 1]), ops[|ops| - 1])
  }

  /** With state kept on disk the deduper remembers every alert across restarts, so over any candidates, in
      any time order, everything it sends obeys the guards. */
  lemma {:induction false} RunObeys(cfg: Config, ops: seq<Op>)
    requires NonNegative(cfg) && cfg.persistState
    ensures var w := Run(cfg, ops);
            && Obeys(cfg, w.sent) && w.memory == MemoryOf(w.sent)
            && w.file == (if w.sent == [] then Missing else Saved(w.memory))
  {
    if ops != [] {
      hide Obeys, Verdict, Recorded;
      var n := |ops| - 1;
      RunObeys(cfg, ops[..n]);
      var w := Run(cfg, ops[..n]);
      if ops[n].Offer? {
        var more := w.sent + [ops[n].c];
        assert more[..|more| - 1] == w.sent;
        VerdictExact(cfg, w.sent, ops[n].c);
      }
    } else {
      assert Obeys(cfg, []);
    }
  }

  /** Without the state file the guards hold as well, until a restart. */
  lemma {:induction false} RunObeysUnrestarted(cfg: Config, ops: seq<Op>)
    requires NonNegative(cfg) && forall i :: 0 <= i < |ops| ==> ops[i].Offer?
    ensures var w := Run(cfg, ops); Obeys(cfg, w.sent) && w.memory == MemoryOf(w.sent)
  {
    if ops != [] {
      hide Obeys, Verdict, Recorded;
      var n := |ops| - 1;
      RunObeysUnrestarted(cfg, ops[..n]);
      var w := Run(cfg, ops[..n]);
      var more := w.sent + [ops[n].c];
      assert more[..|more| - 1] == w.sent;
      VerdictExact(cfg, w.sent, ops[n].c);
    } else {
      assert Obeys(cfg, []);
    }
  }

  /** And nothing is held back without cause: a deliverable candidate goes out exactly when the alerts sent
      with it would still obey the guards. */
  lemma SentExactlyWhenAllowed(cfg: Config, ops: seq<Op>, c: Candidate)
    requires NonNegative(cfg) && cfg.persistState
    ensures var w, after := Run(cfg, ops), Step(cfg, Run(cfg, ops), Offer(c, true));
            && (Obeys(cfg, w.sent + [c]) ==> after.sent == w.sent + [c])
            && (!Obeys(cfg, w.sent + [c]) ==> after == w)
  {
    RunObeys(cfg, ops);
    VerdictExact(cfg, Run(cfg, ops).sent, c);
  }

  /** Without the state file a restart forgets, and the same alert goes out twice. */
  lemma ForgetfulRepeats(cfg: Config, c: Candidate)
    requires NonNegative(cfg) && !cfg.persistState && cfg.maxPerDay >= 1
    ensures var w := Run(cfg, [Offer(c, true), Restart, Offer(c, true)]);
            w.sent == [c, c] && !Obeys(cfg, w.sent)
  {
    var ops := [Offer(c, true), Restart, Offer(c, true)];
    var start := World(Empty, Missing, []);
    assert ops[..2][..1] == ops[..1] && ops[..1][..0] == [];
    assert RunFrom(cfg, start, []) == start;
    assert RunFrom(cfg, start, ops[..1]) == Step(cfg, start, ops[0]);
    assert RunFrom(cfg, start, ops[..2]) == Step(cfg, RunFrom(cfg, start, ops[..1]), Restart);
    var w := Run(cfg, ops);
    assert w == Step(cfg, RunFrom(cfg, start, ops[..2]), ops[2]);
    assert w.sent == [c, c];
    assert !Apart(cfg, w.sent[0], w.sent[1]);
  }

  lemma {:induction false} NothingSent(cfg: Config, ops: seq<Op>)
    requires cfg.maxPerDay == 0
    ensures Run(cfg, ops).sent == []
  {
    if ops != [] {
      NothingSent(cfg, ops[..|ops| - 1]);
    }
  }

  /** Everything sent obeys the guards on every run, restarts included, if and only if the state is kept on
      disk, or nothing may be sent at all. */
  lemma GuardsHoldIff(cfg: Config)
    requires NonNegative(cfg)
    ensures (forall ops :: Obeys(cfg, Run(cfg, ops).sent)) <==> cfg.persistState || cfg.maxPerDay == 0
  {
    hide Run, Verdict, Apart;
    if cfg.persistState {
      forall ops ensures Obeys(cfg, Run(cfg, ops).sent) {
        RunObeys(cfg, ops);
      }
    } else if cfg.maxPerDay == 0 {
      forall ops ensures Obeys(cfg, Run(cfg, ops).sent) {
        NothingSent(cfg, ops);
      }
    } else {
      ForgetfulRepeats(cfg, Candidate("", "", 0, 0.0));
    }
  }

  // ---------------------------------------------------------------- the object

  class Deduper {
    const cfg: Config
    var seen: set<Exact>
    var lastSide: map<string, real>
    var lastSend: Option<real>
    var count: nat
    /** The state file; the path is given. */
    var file: File

    function View(): Memory
      reads this
    {
      Memory(seen, lastSide, lastSend, count)
    }

    constructor (cfg: Config, file: File)
      ensures this.cfg == cfg && this.file == file && View() == Loaded(cfg, file)
    {
      this.cfg := cfg;
      this.file := file;
      seen, lastSide, lastSend, count := {}, map[], None, 0;
      new;
      if cfg.persistState && !file.Missing? {
        Load();
      }
    }

    /** An unreadable file leaves the memory as it is. */
    method Load()
      modifies this
      ensures file == old(file) && View() == if file.Saved? then file.memory else old(View())
    {
      if file.Saved? {
        seen, lastSide, lastSend, count := file.memory.seen, file.memory.lastSide, file.memory.lastSend, file.memory.count;
      }
    }

    method ShouldSend(c: Candidate) returns (ok: bool, reason: Option<Reason>)
      ensures reason == Verdict(cfg, View(), c) && ok == reason.None?
    {
      if ExactOf(c) in seen {
        return false, Some(ExactDup);
      }
      if Key(c) in lastSide {
        if c.now - lastSide[Key(c)] < cfg.cooldownSec {
          return false, Some(Cooldown);
        }
      }
      if lastSend.Some? && c.now - lastSend.value < cfg.minGapSec {
        return false, Some(MinGap);
      }
      if count >= cfg.maxPerDay {
        return false, Some(MaxPerDay);
      }
      return true, None;
    }

    method Record(c: Candidate)
      modifies this
      ensures View() == Recorded(old(View()), c)
      ensures file == if cfg.persistState then Saved(View()) else old(file)
    {
      seen := seen + {ExactOf(c)};
      lastSide := lastSide[Key(c) := c.now];
      lastSend := Some(c.now);
      count := count + 1;
      if cfg.persistState {
        file := Saved(Memory(seen, lastSide, lastSend, count));
      }
    }
  }

  function Offers(cs: seq<Candidate>, delivered: seq<bool>): (ops: seq<Op>)
    requires |delivered| == |cs|
    ensures |ops| == |cs|
  {
    if cs == [] then [] else Offers(cs[..|cs| - 1], delivered[..|cs| - 1]) + [Offer(cs[|cs| - 1], delivered[|cs| - 1])]
  }

  /** One evening's run: every considered candidate is offered in turn and recorded once delivered. */
  method SendAlerts(d: Deduper, cs: seq<Candidate>, delivered: seq<bool>, ghost w: World) returns (sent: nat, ghost after: World)
    requires |delivered| == |cs| && w.memory == d.View() && w.file == d.file
    modifies d
    ensures after == RunFrom(d.cfg, w, Offers(cs, delivered))
    ensures d.View() == after.memory && d.file == after.file && sent == |after.sent| - |w.sent|
  {
    sent, after := 0, w;
    for i := 0 to |cs|
      invariant after == RunFrom(d.cfg, w, Offers(cs[..i], delivered[..i]))
      invariant d.View() == after.memory && d.file == after.file && |after.sent| == |w.sent| + sent
    {
      OffersSnoc(cs, delivered, i);
      var ok, reason := d.ShouldSend(cs[i]);
      after := Step(d.cfg, after, Offer(cs[i], delivered[i]));
      if ok && delivered[i] {
        d.Record(cs[i]);
        sent := sent + 1;
      }
    }
    assert cs[..|cs|] == cs && delivered[..|cs|] == delivered;
  }

  lemma OffersSnoc(cs: seq<Candidate>, delivered: seq<bool>, i: nat)
    requires |delivered| == |cs| && i < |cs|
    ensures var ops := Offers(cs[..i + 1], delivered[..i + 1]);
            ops[..|ops| - 1] == Offers(cs[..i], delivered[..i]) && ops[|ops| - 1] == Offer(cs[i], delivered[i])
  {
    assert cs[..i + 1][..i] == cs[..i] && delivered[..i + 1][..i] == delivered[..i];
  }
}

/**
 * Replenishment and cancellation proxies from depth snapshots (orderflow_engine/research/depth_proxies.py).
 * Two sides of the book share one list of recent trades, which every snapshot prunes.
 *
 * `born` and `at` on pending removals and refills number the side's snapshots; the program does not
 * store them and no decision reads them.
 */
module DepthProxies {
  import opened Seqs
  import Merging

  datatype Side = Bid | Ask

  datatype Config = Config(kRefill: int, near: real, gapGuard: int, wallFrac: real, wallLookback: nat)

  datatype Trade = Trade(ts: int, price: real, size: real)

  /** One side's levels, a dictionary from price to quantity in insertion order. */
  type Book = seq<(real, real)>

  datatype Pending = Pending(price: real, removed: real, snapsLeft: int, born: nat)

  datatype Event =
    | Cancel(ts: int, side: Side, price: real, removed: real, traded: real, cancelQty: real)
    | Refill(ts: int, side: Side, price: real, removed: real, restored: real, born: nat, at: nat)
    | Wall(ts: int, side: Side, price: real, removed: real, traded: real, cancelQty: real)

  datatype Snap = Snap(ts: int, book: Book)

  datatype SideState = SideState(prev: Option<Snap>, pending: seq<Pending>, count: nat)

  datatype Engine = Engine(bid: SideState, ask: SideState, trades: seq<Trade>, sizes: seq<real>, events: seq<Event>)

  const Fresh := Engine(SideState(None, [], 0), SideState(None, [], 0), [], [], [])

  function At(e: Engine, side: Side): SideState {
    if side == Bid then e.bid else e.ask
  }

  function With(e: Engine, side: Side, s: SideState): Engine {
    if side == Bid then e.(bid := s) else e.(ask := s)
  }

  // ---------------------------------------------------------------- books

  predicate Quotes(b: Book, price: real) {
    exists i :: 0 <= i < |b| && b[i].0 == price
  }

  function Qty(b: Book, price: real): real {
    if b == [] then 0.0 else if b[0].0 == price then b[0].1 else Qty(b[1..], price)
  }

  function Max(x: real, y: real): real {
    if x >= y then x else y
  }

  function Min(x: real, y: real): real {
    if x <= y then x else y
  }

  function Abs(x: real): real {
    if x < 0.0 then -x else x
  }

  function Highest(b: Book): real
    requires b != []
  {
    if |b| == 1 then b[0].0 else Max(b[0].0, Highest(b[1..]))
  }

  function Lowest(b: Book): real
    requires b != []
  {
    if |b| == 1 then b[0].0 else Min(b[0].0, Lowest(b[1..]))
  }

  function Best(b: Book, side: Side): Option<real> {
    if b == [] then None else if side == Bid then Some(Highest(b)) else Some(Lowest(b))
  }

  predicate AtMost(x: real, y: real) {
    x <= y
  }

  /** Prices of `p` that `b` quotes too. */
  function Shared(p: Book, b: Book): seq<real> {
    if p == [] then []
    else Shared(p[..|p| - 1], b) + if Quotes(b, p[|p| - 1].0) then [p[|p| - 1].0] else []
  }

  /** `sorted(set(pbook) & set(book))` */
  function Common(p: Book, b: Book): seq<real> {
    Sort(Shared(p, b), AtMost)
  }

  function Quantities(b: Book): (r: seq<real>)
    ensures |r| == |b|
  {
    seq(|b|, i requires 0 <= i < |b| => b[i].1)
  }

  // ---------------------------------------------------------------- trades

  /** Size traded at `price` with t0 < ts <= t1. */
  function Traded(trades: seq<Trade>, price: real, t0: int, t1: int): real {
    if trades == [] then 0.0
    else
      var t := trades[|trades| - 1];
      Traded(trades[..|trades| - 1], price, t0, t1) + if t0 < t.ts <= t1 && t.price == price then t.size else 0.0
  }

  /** The trades later than `t`. */
  function After(trades: seq<Trade>, t: int): seq<Trade> {
    if trades == [] then []
    else After(trades[..|trades| - 1], t) + if trades[|trades| - 1].ts > t then [trades[|trades| - 1]] else []
  }

  // ---------------------------------------------------------------- one snapshot

  function Remembered(c: Config, sizes: seq<real>, book: Book): seq<real> {
    var all := sizes + Quantities(book);
    if |all| > c.wallLookback then all[|all| - c.wallLookback..] else all
  }

  function P90(sizes: seq<real>): Option<real> {
    if |sizes| < 50 then None else Some(Sort(sizes, AtMost)[9 * (|sizes| - 1) / 10])
  }

  datatype Diff = Diff(side: Side, t0: int, t1: int, was: Book, now: Book, trades: seq<Trade>, count: nat)

  datatype Tally = Tally(pending: seq<Pending>, events: seq<Event>)

  function FirstAt(pending: seq<Pending>, price: real): (r: Option<nat>)
    ensures r.Some? ==> r.value < |pending| && pending[r.value].price == price
    ensures r.Some? ==> forall i :: 0 <= i < r.value ==> pending[i].price != price
    ensures r.None? ==> forall i :: 0 <= i < |pending| ==> pending[i].price != price
  {
    if pending == [] then None
    else if pending[0].price == price then Some(0)
    else
      var r := FirstAt(pending[1..], price);
      assert forall i :: 0 < i < |pending| ==> pending[i] == pending[1..][i - 1];
      if r.None? then None else Some(r.value + 1)
  }

  predicate NearBest(c: Config, d: Diff, price: real) {
    var best := Best(d.now, d.side);
    best.Some? && Abs(best.value - price) <= c.near
  }

  /** Diffing one price quoted before and now. */
  function DiffAt(c: Config, d: Diff, t: Tally, price: real): Tally {
    var change := Qty(d.was, price) - Qty(d.now, price);
    if change > 0.0 then
      var traded := Traded(d.trades, price, d.t0, d.t1);
      var cancel := Max(change - traded, 0.0);
      Tally(t.pending + [Pending(price, change, c.kRefill, d.count)],
            t.events + if cancel > 0.0 then [Cancel(d.t1, d.side, price, change, traded, cancel)] else [])
    else if change < 0.0 && FirstAt(t.pending, price).Some? && NearBest(c, d, price) then
      var k := FirstAt(t.pending, price).value;
      var p := t.pending[k];
      Tally(t.pending[..k] + t.pending[k + 1..],
            t.events + [Refill(d.t1, d.side, price, p.removed, -change, p.born, d.count)])
    else t
  }

  function DiffAll(c: Config, d: Diff, prices: seq<real>, t: Tally): Tally {
    if prices == [] then t
    else DiffAt(c, d, DiffAll(c, d, prices[..|prices| - 1], t), prices[|prices| - 1])
  }

  /** A large level that was quoted, is gone, and lies strictly inside the quoted span. */
  function WallAt(c: Config, d: Diff, p90: real, level: (real, real)): seq<Event> {
    if !Quotes(d.now, level.0) && d.now != [] && Lowest(d.now) < level.0 < Highest(d.now) && level.1 >= p90 then
      var traded := Traded(d.trades, level.0, d.t0, d.t1);
      if traded < c.wallFrac * level.1 then [Wall(d.t1, d.side, level.0, level.1, traded, Max(level.1 - traded, 0.0))]
      else []
    else []
  }

  function Walls(c: Config, d: Diff, p90: real, levels: Book): seq<Event> {
    if levels == [] then [] else Walls(c, d, p90, levels[..|levels| - 1]) + WallAt(c, d, p90, levels[|levels| - 1])
  }

  function Aged(pending: seq<Pending>): seq<Pending> {
    if pending == [] then []
    else
      var p := pending[|pending| - 1];
      Aged(pending[..|pending| - 1]) + if p.snapsLeft - 1 > 0 then [p.(snapsLeft := p.snapsLeft - 1)] else []
  }

  predicate Trips(c: Config, s: SideState, ts: int) {
    s.prev.Some? && ts - s.prev.value.ts > c.gapGuard
  }

  function DiffOf(e: Engine, side: Side, ts: int, book: Book): Diff
    requires At(e, side).prev.Some?
  {
    var s := At(e, side);
    Diff(side, s.prev.value.ts, ts, s.prev.value.book, book, e.trades, s.count + 1)
  }

  /** The diff against the previous snapshot: refills and cancels by price, then vanished walls. */
  function Diffed(c: Config, e: Engine, side: Side, ts: int, book: Book, sizes: seq<real>): Tally
    requires At(e, side).prev.Some?
  {
    var d := DiffOf(e, side, ts, book);
    var t := DiffAll(c, d, Common(d.was, d.now), Tally(At(e, side).pending, e.events));
    var p90 := P90(sizes);
    if p90.Some? then t.(events := t.events + Walls(c, d, p90.value, d.was)) else t
  }

  function OnSnapshot(c: Config, e: Engine, side: Side, ts: int, book: Book): Engine {
    var s := At(e, side);
    var sizes := Remembered(c, e.sizes, book);
    var now := Some(Snap(ts, book));
    if s.prev.None? then With(e, side, s.(prev := now, count := s.count + 1)).(sizes := sizes)
    else if Trips(c, s, ts) then
      With(e, side, SideState(now, [], s.count + 1)).(sizes := sizes, trades := After(e.trades, ts))
    else
      var t := Diffed(c, e, side, ts, book, sizes);
      With(e, side, SideState(now, Aged(t.pending), s.count + 1))
        .(sizes := sizes, events := t.events, trades := After(e.trades, ts - 2 * c.gapGuard - 1))
  }

  // ---------------------------------------------------------------- runs

  datatype Op = TradeOp(trade: Trade) | SnapOp(side: Side, ts: int, book: Book)

  function TimeOf(op: Op): int {
    if op.TradeOp? then op.trade.ts else op.ts
  }

  function Step(c: Config, e: Engine, op: Op): Engine {
    match op
    case TradeOp(t) => e.(trades := e.trades + [t])
    case SnapOp(side, ts, book) => OnSnapshot(c, e, side, ts, book)
  }

  function Run(c: Config, ops: seq<Op>): Engine {
    if ops == [] then Fresh else Step(c, Run(c, ops[..|ops| - 1]), ops[|ops| - 1])
  }

  /** Every trade of the run. */
  function AllTrades(ops: seq<Op>): seq<Trade> {
    if ops == [] then []
    else AllTrades(ops[..|ops| - 1]) + if ops[|ops| - 1].TradeOp? then [ops[|ops| - 1].trade] else []
  }

  ghost predicate InTimeOrder(ops: seq<Op>) {
    forall i, j :: 0 <= i < j < |ops| ==> TimeOf(ops[i]) <= TimeOf(ops[j])
  }

  /** How many trades the other side threw away, by tripping the gap guard, since this side's last
      snapshot. */
  function Discarded(c: Config, ops: seq<Op>, side: Side): nat {
    if ops == [] then 0
    else
      var before, op := ops[..|ops| - 1], ops[|ops| - 1];
      match op
      case TradeOp(_) => Discarded(c, before, side)
      case SnapOp(s, ts, _) =>
        if s == side then 0
        else if Trips(c, At(Run(c, before), s), ts) then |AllTrades(before)|
        else Discarded(c, before, side)
  }

  // ------------------------------------------------------- the pruned trades suffice

  lemma {:induction false} AfterConcat(s: seq<Trade>, u: seq<Trade>, t: int)
    ensures After(s + u, t) == After(s, t) + After(u, t)
  {
    if u == [] {
      assert s + u == s;
    } else {
      AfterConcat(s, u[..|u| - 1], t);
      assert (s + u)[..|s + u| - 1] == s + u[..|u| - 1];
    }
  }

  lemma {:induction false} AfterAfter(s: seq<Trade>, t: int, u: int)
    requires t <= u
    ensures After(After(s, t), u) == After(s, u)
  {
    if s != [] {
      AfterAfter(s[..|s| - 1], t, u);
      var last := if s[|s| - 1].ts > t then [s[|s| - 1]] else [];
      AfterConcat(After(s[..|s| - 1], t), last, u);
    }
  }

  lemma {:induction false} AfterNone(s: seq<Trade>, t: int)
    requires forall i :: 0 <= i < |s| ==> s[i].ts <= t
    ensures After(s, t) == []
  {
    if s != [] {
      AfterNone(s[..|s| - 1], t);
    }
  }

  lemma {:induction false} AfterSubset(s: seq<Trade>, t: int, bound: int)
    requires forall i :: 0 <= i < |s| ==> s[i].ts <= bound
    ensures forall i :: 0 <= i < |After(s, t)| ==> After(s, t)[i].ts <= bound
  {
    if s != [] {
      AfterSubset(s[..|s| - 1], t, bound);
    }
  }

  lemma {:induction false} TradedAfter(s: seq<Trade>, price: real, t0: int, t1: int)
    ensures Traded(After(s, t0), price, t0, t1) == Traded(s, price, t0, t1)
  {
    if s != [] {
      var n := |s| - 1;
      TradedAfter(s[..n], price, t0, t1);
      if s[n].ts > t0 {
        assert After(s, t0) == After(s[..n], t0) + [s[n]];
        assert After(s, t0)[..|After(s, t0)| - 1] == After(s[..n], t0);
      } else {
        assert After(s, t0) == After(s[..n], t0);
      }
    }
  }

  lemma {:induction false} TradedConcat(s: seq<Trade>, u: seq<Trade>, price: real, t0: int, t1: int)
    ensures Traded(s + u, price, t0, t1) == Traded(s, price, t0, t1) + Traded(u, price, t0, t1)
  {
    if u == [] {
      assert s + u == s;
    } else {
      TradedConcat(s, u[..|u| - 1], price, t0, t1);
      assert (s + u)[..|s + u| - 1] == s + u[..|u| - 1];
    }
  }

  /** For each side, while its last snapshot is recent, the engine still has every trade after it except
      the ones the other side discarded. */
  ghost predicate Suffices(c: Config, ops: seq<Op>, side: Side) {
    var e, all, k := Run(c, ops), AllTrades(ops), Discarded(c, ops, side);
    && k <= |all|
    && (At(e, side).prev.Some? && ops != [] && TimeOf(ops[|ops| - 1]) - At(e, side).prev.value.ts <= c.gapGuard ==>
          After(e.trades, At(e, side).prev.value.ts) == After(all[k..], At(e, side).prev.value.ts))
  }

  ghost predicate NotLater(s: seq<Trade>, t: int) {
    forall i :: 0 <= i < |s| ==> s[i].ts <= t
  }

  lemma {:induction false} AllNotLater(ops: seq<Op>, t: int)
    requires InTimeOrder(ops) && (ops != [] ==> TimeOf(ops[|ops| - 1]) <= t)
    ensures NotLater(AllTrades(ops), t)
  {
    if ops != [] {
      var n := |ops| - 1;
      assert n > 0 ==> TimeOf(ops[n - 1]) <= TimeOf(ops[n]);
      AllNotLater(ops[..n], t);
    }
  }

  lemma StepNotLater(c: Config, e: Engine, op: Op, t: int)
    requires NotLater(e.trades, t) && TimeOf(op) <= t
    ensures NotLater(Step(c, e, op).trades, t)
  {
    hide OnSnapshot, After;
    if op.SnapOp? {
      AfterSubset(e.trades, op.ts, t);
      AfterSubset(e.trades, op.ts - 2 * c.gapGuard - 1, t);
      SnapTrades(c, e, op.side, op.ts, op.book, if op.side == Bid then Ask else Bid);
    }
  }

  lemma {:induction false} RunNotLater(c: Config, ops: seq<Op>, t: int)
    requires InTimeOrder(ops) && (ops != [] ==> TimeOf(ops[|ops| - 1]) <= t)
    ensures NotLater(Run(c, ops).trades, t)
  {
    if ops != [] {
      hide Step;
      var n := |ops| - 1;
      assert n > 0 ==> TimeOf(ops[n - 1]) <= TimeOf(ops[n]);
      RunNotLater(c, ops[..n], t);
      StepNotLater(c, Run(c, ops[..n]), ops[n], t);
    }
  }

  lemma TradesNotLater(c: Config, ops: seq<Op>, t: int)
    requires InTimeOrder(ops) && (ops != [] ==> TimeOf(ops[|ops| - 1]) <= t)
    ensures NotLater(AllTrades(ops), t) && NotLater(Run(c, ops).trades, t)
  {
    AllNotLater(ops, t);
    RunNotLater(c, ops, t);
  }

  lemma {:induction false} PrunedTradesSuffice(c: Config, ops: seq<Op>, side: Side)
    requires InTimeOrder(ops) && c.gapGuard >= 0
    ensures Suffices(c, ops, side)
  {
    hide *;
    if ops == [] {
      NothingSuffices(c, side);
    } else {
      var before, op := ops[..|ops| - 1], ops[|ops| - 1];
      assert ops == before + [op];
      FrontInTime(ops);
      PrunedTradesSuffice(c, before, side);
      TradesNotLater(c, ops, TimeOf(op));
      TradesNotLater(c, before, TimeOf(op));
      OpTime(op);
      if op.TradeOp? {
        TradeSuffices(c, before, op.trade, side);
        assert op == TradeOp(op.trade);
      } else if op.side == side {
        OwnSnapSuffices(c, ops, side);
      } else {
        OtherSnapSuffices(c, before, op, side);
      }
    }
  }

  lemma NothingSuffices(c: Config, side: Side)
    ensures Suffices(c, [], side)
  {
  }

  lemma OpTime(op: Op)
    ensures TimeOf(op) == if op.TradeOp? then op.trade.ts else op.ts
  {
  }

  lemma FrontInTime(ops: seq<Op>)
    requires InTimeOrder(ops) && ops != []
    ensures var before := ops[..|ops| - 1];
            InTimeOrder(before) && (before != [] ==> TimeOf(before[|before| - 1]) <= TimeOf(ops[|ops| - 1]))
  {
  }

  lemma TradeSuffices(c: Config, before: seq<Op>, t: Trade, side: Side)
    requires Suffices(c, before, side) && (before != [] ==> TimeOf(before[|before| - 1]) <= t.ts)
    ensures Suffices(c, before + [TradeOp(t)], side)
  {
    var ops := before + [TradeOp(t)];
    assert ops[..|ops| - 1] == before;
    var e, all, k := Run(c, before), AllTrades(before), Discarded(c, before, side);
    if At(e, side).prev.Some? && t.ts - At(e, side).prev.value.ts <= c.gapGuard {
      var t0 := At(e, side).prev.value.ts;
      assert before != [];
      AfterConcat(e.trades, [t], t0);
      AfterConcat(all[k..], [t], t0);
      assert (all + [t])[k..] == all[k..] + [t];
    }
  }

  lemma OwnSnapSuffices(c: Config, ops: seq<Op>, side: Side)
    requires ops != [] && ops[|ops| - 1].SnapOp? && ops[|ops| - 1].side == side
    requires NotLater(AllTrades(ops), ops[|ops| - 1].ts) && NotLater(Run(c, ops).trades, ops[|ops| - 1].ts)
    ensures Suffices(c, ops, side)
  {
    var ts := ops[|ops| - 1].ts;
    AfterNone(Run(c, ops).trades, ts);
    AfterNone(AllTrades(ops), ts);
    assert AllTrades(ops)[0..] == AllTrades(ops);
  }

  /** What a snapshot does to the trades and to the other side. */
  lemma SnapTrades(c: Config, e: Engine, side: Side, ts: int, book: Book, other: Side)
    requires other != side
    ensures var s, r := At(e, side), OnSnapshot(c, e, side, ts, book);
            && At(r, other) == At(e, other)
            && r.trades == if s.prev.None? then e.trades
                           else if Trips(c, s, ts) then After(e.trades, ts)
                           else After(e.trades, ts - 2 * c.gapGuard - 1)
  {
    hide Diffed, Remembered, After, Aged;
  }

  lemma OtherSnapSuffices(c: Config, before: seq<Op>, op: Op, side: Side)
    requires c.gapGuard >= 0 && Suffices(c, before, side) && op.SnapOp? && op.side != side
    requires before != [] ==> TimeOf(before[|before| - 1]) <= op.ts
    requires NotLater(Run(c, before).trades, op.ts)
    ensures Suffices(c, before + [op], side)
  {
    hide OnSnapshot, After;
    var ops := before + [op];
    assert ops[..|ops| - 1] == before;
    var e, s := Run(c, before), At(Run(c, before), op.side);
    SnapTrades(c, e, op.side, op.ts, op.book, side);
    assert AllTrades(ops) == AllTrades(before) + [] == AllTrades(before);
    if At(e, side).prev.Some? && op.ts - At(e, side).prev.value.ts <= c.gapGuard {
      var t0 := At(e, side).prev.value.ts;
      assert before != [];
      if Trips(c, s, op.ts) {
        AfterNone(e.trades, op.ts);
        assert AllTrades(ops)[|AllTrades(ops)|..] == [];
      } else if s.prev.Some? {
        AfterAfter(e.trades, op.ts - 2 * c.gapGuard - 1, t0);
      }
    }
  }

  /** The quantity a diff calls traded is the full history's, short of exactly the trades the other side
      discarded by tripping the gap guard since this side's previous snapshot. */
  lemma TradedInDiff(c: Config, ops: seq<Op>, side: Side, ts: int, price: real)
    requires InTimeOrder(ops) && c.gapGuard >= 0 && At(Run(c, ops), side).prev.Some?
    requires (ops != [] ==> TimeOf(ops[|ops| - 1]) <= ts) && !Trips(c, At(Run(c, ops), side), ts)
    ensures var t0, all, k := At(Run(c, ops), side).prev.value.ts, AllTrades(ops), Discarded(c, ops, side);
            && k <= |all|
            && Traded(Run(c, ops).trades, price, t0, ts) == Traded(all[k..], price, t0, ts)
            && Traded(all, price, t0, ts) == Traded(all[..k], price, t0, ts) + Traded(Run(c, ops).trades, price, t0, ts)
  {
    PrunedTradesSuffice(c, ops, side);
    var e := Run(c, ops);
    var t0, all, k := At(e, side).prev.value.ts, AllTrades(ops), Discarded(c, ops, side);
    assert ops != [];
    TradedAfter(e.trades, price, t0, ts);
    TradedAfter(all[k..], price, t0, ts);
    assert all == all[..k] + all[k..];
    TradedConcat(all[..k], all[k..], price, t0, ts);
  }

  lemma {:induction false} TradedZero(s: seq<Trade>, price: real, t0: int, t1: int)
    requires forall i :: 0 <= i < |s| ==> s[i].size > 0.0
    ensures Traded(s, price, t0, t1) >= 0.0
    ensures Traded(s, price, t0, t1) == 0.0 <==> forall i :: 0 <= i < |s| ==> !(t0 < s[i].ts <= t1 && s[i].price == price)
  {
    if s != [] {
      var n := |s| - 1;
      TradedZero(s[..n], price, t0, t1);
      assert s == s[..n] + [s[n]];
      assert forall i :: 0 <= i < n ==> s[..n][i] == s[i];
    }
  }

  /** It is the full history's if and only if no discarded trade was at that price in the interval. */
  lemma TradedIsFullHistory(c: Config, ops: seq<Op>, side: Side, ts: int, price: real)
    requires InTimeOrder(ops) && c.gapGuard >= 0 && At(Run(c, ops), side).prev.Some?
    requires (ops != [] ==> TimeOf(ops[|ops| - 1]) <= ts) && !Trips(c, At(Run(c, ops), side), ts)
    requires forall i :: 0 <= i < |AllTrades(ops)| ==> AllTrades(ops)[i].size > 0.0
    ensures var t0, all, k := At(Run(c, ops), side).prev.value.ts, AllTrades(ops), Discarded(c, ops, side);
            && k <= |all|
            && (Traded(Run(c, ops).trades, price, t0, ts) == Traded(all, price, t0, ts) <==>
                forall i :: 0 <= i < k ==> !(t0 < all[i].ts <= ts && all[i].price == price))
  {
    hide Run, Traded, AllTrades, Discarded, InTimeOrder, Trips;
    TradedInDiff(c, ops, side, ts, price);
    TradedZero(AllTrades(ops)[..Discarded(c, ops, side)], price, At(Run(c, ops), side).prev.value.ts, ts);
  }

  // ---------------------------------------------------------------- a run that falls short

  lemma RunSnoc(c: Config, ops: seq<Op>, op: Op)
    ensures Run(c, ops + [op]) == Step(c, Run(c, ops), op)
    ensures AllTrades(ops + [op]) == if op.TradeOp? then AllTrades(ops) + [op.trade] else AllTrades(ops)
    ensures Run(c, []) == Fresh && AllTrades([]) == []
  {
    assert (ops + [op])[..|ops|] == ops;
    assert AllTrades(ops) + [] == AllTrades(ops);
  }

  const GUARD5 := Config(3, 1.0, 5, 0.5, 100)

  const TRADE5 := Trade(5, 100.0, 3.0)

  /** Ask at 0, bid of 5 at 100 at time 4, three traded there at 5, ask at 6: two more than the guard. */
  const TRIPPING := [SnapOp(Ask, 0, []), SnapOp(Bid, 4, [(100.0, 5.0)]), TradeOp(TRADE5), SnapOp(Ask, 6, [])]

  const TRIPPED := Engine(SideState(Some(Snap(4, [(100.0, 5.0)])), [], 1), SideState(Some(Snap(6, [])), [], 2), [], [5.0], [])

  const QUOTED := Engine(SideState(Some(Snap(4, [(100.0, 5.0)])), [], 1), SideState(Some(Snap(0, [])), [], 1), [], [5.0], [])

  lemma TwoQuotes()
    ensures Step(GUARD5, Step(GUARD5, Fresh, TRIPPING[0]), TRIPPING[1]) == QUOTED
  {
    hide Diffed, Remembered, After;
    FirstSizes();
  }

  lemma TradeThenTrip()
    ensures Step(GUARD5, Step(GUARD5, QUOTED, TRIPPING[2]), TRIPPING[3]) == TRIPPED
  {
    hide Diffed, Remembered, After;
    FirstSizes();
    NoneLater();
    assert [] + [TRADE5] == [TRADE5];
  }

  lemma TrippingRun()
    ensures Run(GUARD5, TRIPPING) == TRIPPED && AllTrades(TRIPPING) == [TRADE5]
  {
    hide Run, AllTrades, Step;
    var c, a := GUARD5, TRIPPING;
    RunSnoc(c, [], a[0]);
    RunSnoc(c, [a[0]], a[1]);
    RunSnoc(c, [a[0], a[1]], a[2]);
    RunSnoc(c, [a[0], a[1], a[2]], a[3]);
    assert [] + [a[0]] == [a[0]] && [a[0]] + [a[1]] == [a[0], a[1]] && [a[0], a[1]] + [a[2]] == [a[0], a[1], a[2]];
    assert [a[0], a[1], a[2]] + [a[3]] == a && [] + [TRADE5] == [TRADE5];
    TwoQuotes();
    TradeThenTrip();
  }

  lemma FirstSizes()
    ensures Remembered(GUARD5, [], []) == [] && Remembered(GUARD5, [], [(100.0, 5.0)]) == [5.0] && Remembered(GUARD5, [5.0], []) == [5.0]
  {
    assert Quantities([]) == [] && Quantities([(100.0, 5.0)]) == [5.0];
    assert [5.0] + Quantities([]) == [5.0] && [] + Quantities([(100.0, 5.0)]) == [5.0];
  }

  lemma NoneLater()
    ensures After([TRADE5], 6) == []
  {
    assert [TRADE5][..0] == [];
  }

  lemma TradedOne(price: real, t0: int, t1: int)
    ensures Traded([TRADE5], price, t0, t1) == (if t0 < 5 <= t1 && price == 100.0 then 3.0 else 0.0) && Traded([], price, t0, t1) == 0.0
  {
    assert [TRADE5][..0] == [];
  }

  lemma OneCommon()
    ensures Common([(100.0, 5.0)], [(100.0, 2.0)]) == [100.0]
  {
    var p, b := [(100.0, 5.0)], [(100.0, 2.0)];
    assert b[0].0 == 100.0 && Quotes(b, 100.0);
    assert p[..0] == [];
    assert Shared(p, b) == [] + [100.0] == [100.0];
    assert [100.0][1..] == [];
  }

  /** The ask side's gap trip discards the three traded at the bid, so the bid's next diff sees none of them
      where the history has three, and reports as cancelled what was traded. */
  lemma TripHidesTrades()
    ensures var e := Run(GUARD5, TRIPPING);
            && InTimeOrder(TRIPPING) && e.bid.prev.Some? && !Trips(GUARD5, e.bid, 8)
            && Traded(e.trades, 100.0, 4, 8) == 0.0 && Traded(AllTrades(TRIPPING), 100.0, 4, 8) == 3.0
            && Run(GUARD5, TRIPPING + [SnapOp(Bid, 8, [(100.0, 2.0)])]).events == [Cancel(8, Bid, 100.0, 3.0, 0.0, 3.0)]
  {
    hide Run, AllTrades, Traded, Common;
    TrippingRun();
    TradedOne(100.0, 4, 8);
    RunSnoc(GUARD5, TRIPPING, SnapOp(Bid, 8, [(100.0, 2.0)]));
    OneCommon();
    var d := DiffOf(TRIPPED, Bid, 8, [(100.0, 2.0)]);
    assert d == Diff(Bid, 4, 8, [(100.0, 5.0)], [(100.0, 2.0)], [], 2);
    assert [100.0][..0] == [];
    assert DiffAll(GUARD5, d, [100.0], Tally([], [])) == DiffAt(GUARD5, d, Tally([], []), 100.0);
    FewSizes();
    assert [] + [Cancel(8, Bid, 100.0, 3.0, 0.0, 3.0)] == [Cancel(8, Bid, 100.0, 3.0, 0.0, 3.0)];
  }

  lemma FewSizes()
    ensures P90(Remembered(GUARD5, [5.0], [(100.0, 2.0)])).None?
  {
    assert |Quantities([(100.0, 2.0)])| == 1;
  }

  // ---------------------------------------------------------------- what events say

  /** Only prices quoted in both snapshots are diffed. */
  ghost predicate InBoth(was: Book, now: Book, price: real) {
    Quotes(was, price) && Quotes(now, price)
  }

  /** What an event of a diff says.  A cancel: at a price quoted before and now, the quantity removed less the
      quantity traded, which leaves some.  A refill: at such a price near the best, the quantity added.  A
      wall: a level quoted before with at least the 90th percentile, gone from strictly inside the quoted
      span, of which less than the wall fraction was traded. */
  ghost predicate EventOk(c: Config, d: Diff, p90: Option<real>, e: Event) {
    match e
    case Cancel(ts, side, price, removed, traded, cancelQty) =>
      && ts == d.t1 && side == d.side && InBoth(d.was, d.now, price) && removed == Qty(d.was, price) - Qty(d.now, price)
      && traded == Traded(d.trades, price, d.t0, d.t1) && cancelQty == removed - traded > 0.0 && removed > 0.0
    case Refill(ts, side, price, _, restored, _, at) =>
      && ts == d.t1 && side == d.side && at == d.count && InBoth(d.was, d.now, price) && NearBest(c, d, price)
      && restored == Qty(d.now, price) - Qty(d.was, price) > 0.0
    case Wall(ts, side, price, removed, traded, cancelQty) =>
      && ts == d.t1 && side == d.side && (price, removed) in d.was && !Quotes(d.now, price)
      && (DistinctBook(d.was) ==> removed == Qty(d.was, price))
      && p90.Some? && removed >= p90.value && d.now != [] && Lowest(d.now) < price < Highest(d.now)
      && traded == Traded(d.trades, price, d.t0, d.t1) < c.wallFrac * removed
      && cancelQty == Max(removed - traded, 0.0)
  }

  /** `after` extends `before` by events that all say what they should. */
  ghost predicate Extends(c: Config, d: Diff, p90: Option<real>, before: seq<Event>, after: seq<Event>) {
    && |before| <= |after| && after[..|before|] == before
    && forall i :: |before| <= i < |after| ==> EventOk(c, d, p90, after[i])
  }

  lemma ExtendsBy(c: Config, d: Diff, p90: Option<real>, before: seq<Event>, mid: seq<Event>, more: seq<Event>)
    requires Extends(c, d, p90, before, mid) && forall i :: 0 <= i < |more| ==> EventOk(c, d, p90, more[i])
    ensures Extends(c, d, p90, before, mid + more)
  {
    hide EventOk;
    assert (mid + more)[..|before|] == mid[..|before|];
  }

  /** What diffing one price adds. */
  lemma DiffAtEvents(c: Config, d: Diff, p90: Option<real>, t: Tally, price: real) returns (more: seq<Event>)
    requires InBoth(d.was, d.now, price)
    ensures DiffAt(c, d, t, price).events == t.events + more
    ensures forall i :: 0 <= i < |more| ==> EventOk(c, d, p90, more[i])
  {
    hide Traded, Quotes, Best;
    var out := DiffAt(c, d, t, price);
    more := out.events[|t.events|..];
    assert out.events == t.events + more;
  }

  lemma {:induction false} DiffAllEvents(c: Config, d: Diff, p90: Option<real>, prices: seq<real>, t: Tally)
    requires forall i :: 0 <= i < |prices| ==> InBoth(d.was, d.now, prices[i])
    ensures Extends(c, d, p90, t.events, DiffAll(c, d, prices, t).events)
  {
    if prices != [] {
      hide EventOk, DiffAt, Extends, InBoth;
      var n := |prices| - 1;
      DiffAllEvents(c, d, p90, prices[..n], t);
      var mid := DiffAll(c, d, prices[..n], t);
      var more := DiffAtEvents(c, d, p90, mid, prices[n]);
      ExtendsBy(c, d, p90, t.events, mid.events, more);
    } else {
      assert t.events[..|t.events|] == t.events;
    }
  }

  ghost predicate DistinctBook(b: Book) {
    forall i, j :: 0 <= i < j < |b| ==> b[i].0 != b[j].0
  }

  /** With distinct prices a level is what the book quotes at its price. */
  lemma {:induction false} QtyOf(b: Book, level: (real, real))
    requires level in b && DistinctBook(b)
    ensures Qty(b, level.0) == level.1
  {
    if level != b[0] {
      assert level in b[1..];
      var k :| 0 <= k < |b[1..]| && b[1..][k] == level;
      assert b[k + 1] == level;
      QtyOf(b[1..], level);
    }
  }

  lemma WallOk(c: Config, d: Diff, p90: real, level: (real, real))
    requires level in d.was
    ensures forall i :: 0 <= i < |WallAt(c, d, p90, level)| ==>
              EventOk(c, d, Some(p90), WallAt(c, d, p90, level)[i]) && WallAt(c, d, p90, level)[i].Wall?
  {
    hide Traded, DistinctBook, Qty, Quotes, Lowest, Highest;
    if DistinctBook(d.was) {
      QtyOf(d.was, level);
    }
  }

  lemma {:induction false} WallsOk(c: Config, d: Diff, p90: real, levels: Book)
    requires forall i :: 0 <= i < |levels| ==> levels[i] in d.was
    ensures forall i :: 0 <= i < |Walls(c, d, p90, levels)| ==>
              EventOk(c, d, Some(p90), Walls(c, d, p90, levels)[i]) && Walls(c, d, p90, levels)[i].Wall?
  {
    if levels != [] {
      hide EventOk, WallAt;
      WallsOk(c, d, p90, levels[..|levels| - 1]);
      WallOk(c, d, p90, levels[|levels| - 1]);
    }
  }

  lemma {:induction false} SharedQuoted(p: Book, b: Book, x: real)
    ensures x in Shared(p, b) ==> InBoth(p, b, x)
  {
    if p != [] {
      var n := |p| - 1;
      SharedQuoted(p[..n], b, x);
      if x in Shared(p[..n], b) {
        var k :| 0 <= k < n && p[..n][k].0 == x;
        assert p[k].0 == x;
      } else if x in Shared(p, b) {
        assert p[n].0 == x;
      }
    }
  }

  lemma CommonQuoted(p: Book, b: Book)
    ensures forall i :: 0 <= i < |Common(p, b)| ==> InBoth(p, b, Common(p, b)[i])
  {
    hide InBoth, Shared;
    forall i | 0 <= i < |Common(p, b)| ensures InBoth(p, b, Common(p, b)[i]) {
      SortMember(Shared(p, b), AtMost, Common(p, b)[i]);
      SharedQuoted(p, b, Common(p, b)[i]);
    }
  }

  lemma DiffedEvents(c: Config, e: Engine, side: Side, ts: int, book: Book, sizes: seq<real>)
    requires At(e, side).prev.Some?
    ensures Extends(c, DiffOf(e, side, ts, book), P90(sizes), e.events, Diffed(c, e, side, ts, book, sizes).events)
  {
    hide DiffAll, Walls, Extends, Common, EventOk, P90;
    var d := DiffOf(e, side, ts, book);
    var prices := Common(d.was, d.now);
    var start := Tally(At(e, side).pending, e.events);
    CommonQuoted(d.was, d.now);
    var p90 := P90(sizes);
    DiffAllEvents(c, d, p90, prices, start);
    if p90.Some? {
      WallsOk(c, d, p90.value, d.was);
      ExtendsBy(c, d, p90, e.events, DiffAll(c, d, prices, start).events, Walls(c, d, p90.value, d.was));
    }
  }

  /** A snapshot adds nothing when it is its side's first or trips the gap guard, and otherwise only events
      of its diff that say what they should. */
  lemma SnapshotEvents(c: Config, e: Engine, side: Side, ts: int, book: Book)
    ensures var r, s := OnSnapshot(c, e, side, ts, book), At(e, side);
            if s.prev.None? || Trips(c, s, ts) then r.events == e.events
            else Extends(c, DiffOf(e, side, ts, book), P90(Remembered(c, e.sizes, book)), e.events, r.events)
  {
    hide Diffed, Extends, P90, Remembered, After, Aged;
    if At(e, side).prev.Some? {
      DiffedEvents(c, e, side, ts, book, Remembered(c, e.sizes, book));
    }
  }

  // ---------------------------------------------------------------- where refills come from

  function SideSnaps(ops: seq<Op>, side: Side): seq<Snap> {
    if ops == [] then []
    else
      var op := ops[|ops| - 1];
      SideSnaps(ops[..|ops| - 1], side) + if op.SnapOp? && op.side == side then [Snap(op.ts, op.book)] else []
  }

  /** Snapshot number `n` (from 1) took `qty` away at `price`, and was close enough to be diffed. */
  ghost predicate Removal(c: Config, snaps: seq<Snap>, n: nat, price: real, qty: real) {
    && 2 <= n <= |snaps| && InBoth(snaps[n - 2].book, snaps[n - 1].book, price)
    && qty == Qty(snaps[n - 2].book, price) - Qty(snaps[n - 1].book, price) > 0.0
  }

  /** No snapshot numbered from `i` up to and including `j` tripped the gap guard. */
  ghost predicate NoReset(c: Config, snaps: seq<Snap>, i: nat, j: nat)
    requires 2 <= i && j <= |snaps|
  {
    forall m :: i - 1 <= m < j ==> snaps[m].ts - snaps[m - 1].ts <= c.gapGuard
  }

  ghost predicate PendingOk(c: Config, snaps: seq<Snap>, p: Pending, left: int) {
    && Removal(c, snaps, p.born, p.price, p.removed) && NoReset(c, snaps, p.born, |snaps|)
    && p.snapsLeft == left - (|snaps| - p.born)
  }

  /** A refill answers an earlier removal of the same side and price, fewer than k_refill snapshots back
      with no gap reset in between. */
  ghost predicate RefillOk(c: Config, snaps: seq<Snap>, e: Event)
    requires e.Refill?
  {
    && Removal(c, snaps, e.born, e.price, e.removed)
    && e.born < e.at <= |snaps| && e.at - e.born < c.kRefill && NoReset(c, snaps, e.born, e.at)
    && e.ts == snaps[e.at - 1].ts && InBoth(snaps[e.at - 2].book, snaps[e.at - 1].book, e.price)
    && e.restored == Qty(snaps[e.at - 1].book, e.price) - Qty(snaps[e.at - 2].book, e.price) > 0.0
  }

  /** Which removals are pending, and which have fed a refill. */
  ghost function Waiting(pending: seq<Pending>): multiset<(nat, real)> {
    if pending == [] then multiset{}
    else Waiting(pending[..|pending| - 1]) + multiset{(pending[|pending| - 1].born, pending[|pending| - 1].price)}
  }

  ghost function Fed(events: seq<Event>, side: Side): multiset<(nat, real)> {
    if events == [] then multiset{}
    else
      var e := events[|events| - 1];
      Fed(events[..|events| - 1], side) + if e.Refill? && e.side == side then multiset{(e.born, e.price)} else multiset{}
  }

  ghost predicate Once(b: multiset<(nat, real)>) {
    forall x :: b[x] <= 1
  }

  ghost predicate RefillsOk(c: Config, snaps: seq<Snap>, events: seq<Event>, side: Side) {
    forall i :: 0 <= i < |events| && events[i].Refill? && events[i].side == side ==> RefillOk(c, snaps, events[i])
  }

  ghost predicate PendingsOk(c: Config, snaps: seq<Snap>, pending: seq<Pending>, done: seq<real>) {
    forall i :: 0 <= i < |pending| ==>
      && PendingOk(c, snaps, pending[i], c.kRefill)
      && (pending[i].born == |snaps| ==> pending[i].price in done)
      && (pending[i].born < |snaps| ==> pending[i].snapsLeft > 0)
  }

  /** The books of one side in the middle of a snapshot, `done` being the prices already diffed. */
  ghost predicate Mid(c: Config, snaps: seq<Snap>, side: Side, t: Tally, done: seq<real>) {
    && PendingsOk(c, snaps, t.pending, done)
    && RefillsOk(c, snaps, t.events, side)
    && Once(Waiting(t.pending) + Fed(t.events, side))
  }

  type Bag = multiset<(nat, real)>

  lemma BagAssociative(a: Bag, b: Bag, c: Bag)
    ensures (a + b) + c == a + (b + c) == (a + c) + b
  {
  }

  lemma OnceMore(a: Bag, b: Bag, x: (nat, real))
    requires Once(a + b) && x !in a && x !in b
    ensures Once((a + multiset{x}) + b)
  {
    forall y ensures ((a + multiset{x}) + b)[y] <= 1 {
      assert (a + b)[y] <= 1;
    }
  }

  lemma WaitingSnoc(s: seq<Pending>, p: Pending)
    ensures Waiting(s + [p]) == Waiting(s) + multiset{(p.born, p.price)}
  {
    assert (s + [p])[..|s|] == s;
  }

  lemma {:induction false} WaitingRemove(s: seq<Pending>, k: nat)
    requires k < |s|
    ensures Waiting(s) == Waiting(s[..k] + s[k + 1..]) + multiset{(s[k].born, s[k].price)}
  {
    hide Waiting;
    var n := |s| - 1;
    var before, last := s[..n], s[n];
    assert s == before + [last];
    WaitingSnoc(before, last);
    if k == n {
      assert s[..k] + s[k + 1..] == before;
    } else {
      WaitingRemove(before, k);
      var rest := before[..k] + before[k + 1..];
      assert s[..k] + s[k + 1..] == rest + [last];
      WaitingSnoc(rest, last);
      BagAssociative(Waiting(rest), multiset{(s[k].born, s[k].price)}, multiset{(last.born, last.price)});
    }
  }

  lemma {:induction false} WaitingMember(s: seq<Pending>, x: (nat, real))
    ensures x in Waiting(s) ==> exists i :: 0 <= i < |s| && s[i].born == x.0 && s[i].price == x.1
  {
    if s != [] {
      var n := |s| - 1;
      WaitingMember(s[..n], x);
      if i :| 0 <= i < n && s[..n][i].born == x.0 && s[..n][i].price == x.1 {
        assert s[i].born == x.0 && s[i].price == x.1;
      }
    }
  }

  lemma FedSnoc(s: seq<Event>, e: Event, side: Side)
    ensures Fed(s + [e], side) == Fed(s, side) + if e.Refill? && e.side == side then multiset{(e.born, e.price)} else multiset{}
  {
    assert (s + [e])[..|s|] == s;
  }

  lemma {:induction false} FedMember(s: seq<Event>, side: Side, x: (nat, real))
    ensures x in Fed(s, side) ==> exists i :: 0 <= i < |s| && s[i].Refill? && s[i].side == side && s[i].born == x.0
  {
    if s != [] {
      var n := |s| - 1;
      FedMember(s[..n], side, x);
      if i :| 0 <= i < n && s[..n][i].Refill? && s[..n][i].side == side && s[..n][i].born == x.0 {
        assert s[i] == s[..n][i];
      }
    }
  }

  lemma {:induction false} FedExtend(s: seq<Event>, more: seq<Event>, side: Side)
    requires forall i :: 0 <= i < |more| ==> !more[i].Refill? || more[i].side != side
    ensures Fed(s + more, side) == Fed(s, side)
  {
    if more == [] {
      assert s + more == s;
    } else {
      hide Fed;
      var v, e := more[..|more| - 1], more[|more| - 1];
      FedExtend(s, v, side);
      assert s + more == (s + v) + [e];
      FedSnoc(s + v, e, side);
    }
  }

  /** The snapshots the diff compares are the last two of the side. */
  ghost predicate Latest(c: Config, snaps: seq<Snap>, d: Diff) {
    && |snaps| == d.count >= 2 && d.t1 - d.t0 <= c.gapGuard
    && snaps[d.count - 1] == Snap(d.t1, d.now) && snaps[d.count - 2] == Snap(d.t0, d.was)
  }

  lemma FreshRemoval(c: Config, snaps: seq<Snap>, side: Side, t: Tally, price: real, done: seq<real>)
    requires Mid(c, snaps, side, t, done) && price !in done
    ensures (|snaps|, price) !in Waiting(t.pending) && (|snaps|, price) !in Fed(t.events, side)
  {
    hide Waiting, Fed, Once;
    WaitingMember(t.pending, (|snaps|, price));
    FedMember(t.events, side, (|snaps|, price));
  }

  lemma RemovalKeeps(c: Config, snaps: seq<Snap>, d: Diff, t: Tally, p: Pending, done: seq<real>)
    requires Latest(c, snaps, d) && Mid(c, snaps, d.side, t, done) && p.price !in done
    requires Qty(d.was, p.price) > Qty(d.now, p.price) && InBoth(d.was, d.now, p.price)
    requires p == Pending(p.price, Qty(d.was, p.price) - Qty(d.now, p.price), c.kRefill, d.count)
    ensures PendingsOk(c, snaps, t.pending + [p], done + [p.price])
    ensures Once(Waiting(t.pending + [p]) + Fed(t.events, d.side))
  {
    hide Waiting, Fed, RefillsOk, Once, InBoth;
    FreshRemoval(c, snaps, d.side, t, p.price, done);
    WaitingSnoc(t.pending, p);
    OnceMore(Waiting(t.pending), Fed(t.events, d.side), (p.born, p.price));
    AddedPending(c, snaps, t.pending, done, p);
  }

  lemma AddedPending(c: Config, snaps: seq<Snap>, pending: seq<Pending>, done: seq<real>, p: Pending)
    requires PendingsOk(c, snaps, pending, done)
    requires PendingOk(c, snaps, p, c.kRefill) && p.born == |snaps|
    ensures PendingsOk(c, snaps, pending + [p], done + [p.price])
  {
    hide PendingOk;
    assert forall x :: x in done ==> x in done + [p.price];
    assert p.price in done + [p.price];
  }

  lemma DroppedPending(c: Config, snaps: seq<Snap>, pending: seq<Pending>, done: seq<real>, k: nat, price: real)
    requires PendingsOk(c, snaps, pending, done) && k < |pending|
    ensures PendingsOk(c, snaps, pending[..k] + pending[k + 1..], done + [price])
  {
    hide PendingOk;
    var rest := pending[..k] + pending[k + 1..];
    forall i | 0 <= i < |rest|
      ensures && PendingOk(c, snaps, rest[i], c.kRefill)
              && (rest[i].born == |snaps| ==> rest[i].price in done)
              && (rest[i].born < |snaps| ==> rest[i].snapsLeft > 0)
    {
      assert rest[i] == pending[if i < k then i else i + 1];
    }
  }

  lemma AnswersRemoval(c: Config, snaps: seq<Snap>, d: Diff, p: Pending, done: seq<real>)
    requires Latest(c, snaps, d) && PendingOk(c, snaps, p, c.kRefill) && p.price !in done
    requires p.born == |snaps| ==> p.price in done
    requires p.born < |snaps| ==> p.snapsLeft > 0
    requires Qty(d.was, p.price) < Qty(d.now, p.price) && InBoth(d.was, d.now, p.price)
    ensures RefillOk(c, snaps, Refill(d.t1, d.side, p.price, p.removed, Qty(d.now, p.price) - Qty(d.was, p.price), p.born, d.count))
  {
  }

  lemma RefillKeeps(c: Config, snaps: seq<Snap>, d: Diff, t: Tally, done: seq<real>, k: nat, e: Event)
    requires Latest(c, snaps, d) && Mid(c, snaps, d.side, t, done) && k < |t.pending| && t.pending[k].price !in done
    requires var p := t.pending[k];
             && Qty(d.was, p.price) < Qty(d.now, p.price) && InBoth(d.was, d.now, p.price)
             && e == Refill(d.t1, d.side, p.price, p.removed, Qty(d.now, p.price) - Qty(d.was, p.price), p.born, d.count)
    ensures Mid(c, snaps, d.side, Tally(t.pending[..k] + t.pending[k + 1..], t.events + [e]), done + [t.pending[k].price])
  {
    var p := t.pending[k];
    DroppedPending(c, snaps, t.pending, done, k, p.price);
    AnswersRemoval(c, snaps, d, p, done);
    AddedRefill(c, snaps, t.events, d.side, e);
    hide Waiting, Fed, RefillsOk, Once, PendingsOk, RefillOk;
    WaitingRemove(t.pending, k);
    FedSnoc(t.events, e, d.side);
    var rest, x := Waiting(t.pending[..k] + t.pending[k + 1..]), multiset{(p.born, p.price)};
    BagAssociative(rest, Fed(t.events, d.side), x);
    assert rest + Fed(t.events + [e], d.side) == Waiting(t.pending) + Fed(t.events, d.side);
  }

  lemma AddedRefill(c: Config, snaps: seq<Snap>, events: seq<Event>, side: Side, e: Event)
    requires RefillsOk(c, snaps, events, side) && e.Refill? && RefillOk(c, snaps, e)
    ensures RefillsOk(c, snaps, events + [e], side)
  {
    hide RefillOk;
  }

  lemma DiffAtKeeps(c: Config, snaps: seq<Snap>, d: Diff, t: Tally, price: real, done: seq<real>)
    requires Latest(c, snaps, d) && Mid(c, snaps, d.side, t, done) && price !in done && InBoth(d.was, d.now, price)
    ensures Mid(c, snaps, d.side, DiffAt(c, d, t, price), done + [price])
  {
    hide Waiting, Fed, PendingOk, RefillOk, Once, InBoth;
    var change := Qty(d.was, price) - Qty(d.now, price);
    var out := DiffAt(c, d, t, price);
    if change > 0.0 {
      var p := Pending(price, change, c.kRefill, d.count);
      RemovalKeeps(c, snaps, d, t, p, done);
      FedExtend(t.events, out.events[|t.events|..], d.side);
      assert out.events == t.events + out.events[|t.events|..];
    } else if change < 0.0 && FirstAt(t.pending, price).Some? && NearBest(c, d, price) {
      var k := FirstAt(t.pending, price).value;
      var p := t.pending[k];
      RefillKeeps(c, snaps, d, t, done, k, Refill(d.t1, d.side, price, p.removed, -change, p.born, d.count));
    } else {
      assert forall x :: x in done ==> x in done + [price];
    }
  }

  lemma {:induction false} DiffAllKeeps(c: Config, snaps: seq<Snap>, d: Diff, prices: seq<real>, t: Tally)
    requires Latest(c, snaps, d) && Mid(c, snaps, d.side, t, [])
    requires Distinct(prices)
    requires forall i :: 0 <= i < |prices| ==> InBoth(d.was, d.now, prices[i])
    ensures Mid(c, snaps, d.side, DiffAll(c, d, prices, t), prices)
  {
    if prices != [] {
      hide Mid, DiffAt, InBoth;
      var n := |prices| - 1;
      DiffAllKeeps(c, snaps, d, prices[..n], t);
      DiffAtKeeps(c, snaps, d, DiffAll(c, d, prices[..n], t), prices[n], prices[..n]);
      assert prices == prices[..n] + [prices[n]];
    }
  }

  // ---------------------------------------------------------------- refills over whole runs

  lemma {:induction false} SharedFrom(p: Book, b: Book)
    ensures forall i :: 0 <= i < |Shared(p, b)| ==> exists j :: 0 <= j < |p| && p[j].0 == Shared(p, b)[i]
    ensures DistinctBook(p) ==> Distinct(Shared(p, b))
  {
    if p != [] {
      var n := |p| - 1;
      SharedFrom(p[..n], b);
      var s := Shared(p[..n], b);
      forall i | 0 <= i < |s| ensures exists j :: 0 <= j < n && p[j].0 == s[i] {
        var j :| 0 <= j < n && p[..n][j].0 == s[i];
        assert p[j].0 == s[i];
      }
      forall i | 0 <= i < |Shared(p, b)| ensures exists j :: 0 <= j < |p| && p[j].0 == Shared(p, b)[i] {
        if i == |s| {
          assert p[n].0 == Shared(p, b)[i];
        }
      }
      if DistinctBook(p) {
        assert Distinct(s);
        forall i | 0 <= i < |s| ensures s[i] != p[n].0 {
          var j :| 0 <= j < n && p[j].0 == s[i];
        }
        var out := Shared(p, b);
        forall i, j | 0 <= i < j < |out| ensures out[i] != out[j] {
          assert out[i] == s[i];
          assert j < |s| ==> out[j] == s[j];
        }
      }
    } else {
      assert Shared(p, b) == [];
    }
  }

  lemma CommonDistinct(p: Book, b: Book)
    requires DistinctBook(p)
    ensures Distinct(Common(p, b))
  {
    SharedFrom(p, b);
    var s := Common(p, b);
    forall i, j | 0 <= i < j < |s| ensures s[i] != s[j] {
      Merging.PairIn(s, i, j);
      Merging.OnceIn(Shared(p, b), s[i]);
    }
  }

  ghost predicate StandingOk(c: Config, snaps: seq<Snap>, pending: seq<Pending>) {
    forall i :: 0 <= i < |pending| ==> PendingOk(c, snaps, pending[i], c.kRefill - 1) && pending[i].snapsLeft > 0
  }

  /** What a run keeps for one side: its pending removals and every refill so far are accounted for, and
      no removal is waiting twice, has fed twice, or has fed and still waits. */
  ghost predicate SideOk(c: Config, side: Side, s: SideState, events: seq<Event>, snaps: seq<Snap>) {
    && s.count == |snaps| && s.prev == (if snaps == [] then None else Some(snaps[|snaps| - 1]))
    && StandingOk(c, snaps, s.pending) && RefillsOk(c, snaps, events, side)
    && Once(Waiting(s.pending) + Fed(events, side))
  }

  lemma RefillsExtend(c: Config, snaps: seq<Snap>, snap: Snap, events: seq<Event>, side: Side)
    requires RefillsOk(c, snaps, events, side)
    ensures RefillsOk(c, snaps + [snap], events, side)
  {
    forall i | 0 <= i < |events| && events[i].Refill? && events[i].side == side ensures RefillOk(c, snaps + [snap], events[i]) {
      assert RefillOk(c, snaps, events[i]);
    }
  }

  lemma StartMid(c: Config, side: Side, s: SideState, events: seq<Event>, snaps: seq<Snap>, snap: Snap)
    requires SideOk(c, side, s, events, snaps) && snaps != [] && snap.ts - snaps[|snaps| - 1].ts <= c.gapGuard
    ensures Mid(c, snaps + [snap], side, Tally(s.pending, events), [])
  {
    hide Waiting, Fed, Once;
    RefillsExtend(c, snaps, snap, events, side);
    var more := snaps + [snap];
    forall i | 0 <= i < |s.pending|
      ensures PendingOk(c, more, s.pending[i], c.kRefill) && s.pending[i].born < |more| && s.pending[i].snapsLeft > 0
    {
      assert PendingOk(c, snaps, s.pending[i], c.kRefill - 1);
    }
  }

  lemma AgeOne(c: Config, snaps: seq<Snap>, p: Pending)
    requires PendingOk(c, snaps, p, c.kRefill)
    ensures PendingOk(c, snaps, p.(snapsLeft := p.snapsLeft - 1), c.kRefill - 1)
  {
  }

  lemma {:induction false} AgedStanding(c: Config, snaps: seq<Snap>, pending: seq<Pending>)
    requires forall i :: 0 <= i < |pending| ==> PendingOk(c, snaps, pending[i], c.kRefill)
    ensures StandingOk(c, snaps, Aged(pending))
  {
    if pending != [] {
      hide PendingOk;
      AgedStanding(c, snaps, pending[..|pending| - 1]);
      AgeOne(c, snaps, pending[|pending| - 1]);
    }
  }

  lemma AgedWaitingSnoc(before: seq<Pending>, last: Pending)
    requires Waiting(Aged(before)) <= Waiting(before)
    ensures Waiting(Aged(before + [last])) <= Waiting(before + [last])
  {
    hide Waiting;
    var pending := before + [last];
    assert pending[..|pending| - 1] == before;
    var p := last.(snapsLeft := last.snapsLeft - 1);
    WaitingSnoc(before, last);
    WaitingSnoc(Aged(before), p);
    SubBag(Waiting(Aged(before)), Waiting(before), multiset{(p.born, p.price)});
    assert Aged(pending) == Aged(before) + if last.snapsLeft - 1 > 0 then [p] else [];
    assert Aged(before) + [] == Aged(before);
  }

  lemma NoneWaiting()
    ensures Waiting(Aged([])) == Waiting([])
  {
  }

  lemma {:induction false} AgedWaiting(pending: seq<Pending>)
    ensures Waiting(Aged(pending)) <= Waiting(pending)
  {
    hide Aged, Waiting;
    if pending == [] {
      NoneWaiting();
    } else {
      var before, last := pending[..|pending| - 1], pending[|pending| - 1];
      AgedWaiting(before);
      AgedWaitingSnoc(before, last);
      assert pending == before + [last];
    }
  }

  lemma SubBag(a: Bag, b: Bag, x: Bag)
    requires a <= b
    ensures a + x <= b + x && a <= b + x
  {
  }

  lemma OnceLess(a: Bag, b: Bag, f: Bag)
    requires a <= b && Once(b + f)
    ensures Once(a + f)
  {
    forall x ensures (a + f)[x] <= 1 {
      assert (b + f)[x] <= 1;
    }
  }

  lemma WallsKeep(c: Config, snaps: seq<Snap>, side: Side, t: Tally, done: seq<real>, more: seq<Event>)
    requires Mid(c, snaps, side, t, done) && forall i :: 0 <= i < |more| ==> more[i].Wall?
    ensures Mid(c, snaps, side, t.(events := t.events + more), done)
  {
    hide RefillOk, PendingOk, Waiting, Fed;
    FedExtend(t.events, more, side);
  }

  lemma DiffedKeeps(c: Config, e: Engine, side: Side, ts: int, book: Book, sizes: seq<real>, snaps: seq<Snap>)
    requires SideOk(c, side, At(e, side), e.events, snaps) && snaps != [] && DistinctBook(snaps[|snaps| - 1].book)
    requires !Trips(c, At(e, side), ts)
    ensures var t := Diffed(c, e, side, ts, book, sizes);
            Mid(c, snaps + [Snap(ts, book)], side, t, Common(snaps[|snaps| - 1].book, book))
  {
    hide Mid, Common, Walls, DiffAll;
    var d := DiffOf(e, side, ts, book);
    var more := snaps + [Snap(ts, book)];
    StartMid(c, side, At(e, side), e.events, snaps, Snap(ts, book));
    CommonDistinct(d.was, d.now);
    CommonQuoted(d.was, d.now);
    var start := Tally(At(e, side).pending, e.events);
    var prices := Common(d.was, d.now);
    DiffAllKeeps(c, more, d, prices, start);
    var p90 := P90(sizes);
    if p90.Some? {
      WallsOk(c, d, p90.value, d.was);
      WallsKeep(c, more, side, DiffAll(c, d, prices, start), prices, Walls(c, d, p90.value, d.was));
    }
  }

  lemma SnapKeepsOwn(c: Config, e: Engine, side: Side, ts: int, book: Book, snaps: seq<Snap>)
    requires SideOk(c, side, At(e, side), e.events, snaps) && (snaps != [] ==> DistinctBook(snaps[|snaps| - 1].book))
    ensures var r := OnSnapshot(c, e, side, ts, book); SideOk(c, side, At(r, side), r.events, snaps + [Snap(ts, book)])
  {
    hide Diffed, RefillOk, Aged, Once, Waiting, Fed, Remembered, After;
    var s, more := At(e, side), snaps + [Snap(ts, book)];
    RefillsExtend(c, snaps, Snap(ts, book), e.events, side);
    if s.prev.None? {
      NoneStanding(c, s.pending);
    } else if Trips(c, s, ts) {
      NothingWaiting();
      OnceLess(multiset{}, Waiting(s.pending), Fed(e.events, side));
    } else {
      var sizes := Remembered(c, e.sizes, book);
      var t := Diffed(c, e, side, ts, book, sizes);
      DiffedKeeps(c, e, side, ts, book, sizes, snaps);
      AgedStanding(c, more, t.pending);
      AgedWaiting(t.pending);
      OnceLess(Waiting(Aged(t.pending)), Waiting(t.pending), Fed(t.events, side));
    }
  }

  lemma NoneStanding(c: Config, pending: seq<Pending>)
    requires StandingOk(c, [], pending)
    ensures pending == []
  {
    var p := if |pending| > 0 then pending[0] else Pending(0.0, 0.0, 0, 0);
    assert |pending| > 0 ==> PendingOk(c, [], p, c.kRefill - 1);
  }

  lemma NothingWaiting()
    ensures Waiting([]) == multiset{}
  {
  }

  lemma SnapKeepsOther(c: Config, e: Engine, side: Side, ts: int, book: Book, other: Side, snaps: seq<Snap>)
    requires other != side && SideOk(c, other, At(e, other), e.events, snaps)
    ensures var r := OnSnapshot(c, e, side, ts, book); SideOk(c, other, At(r, other), r.events, snaps)
  {
    hide Diffed, RefillOk, Aged, Once, Waiting, Fed, Remembered, After, StandingOk;
    var s := At(e, side);
    if s.prev.Some? && !Trips(c, s, ts) {
      var sizes := Remembered(c, e.sizes, book);
      var t := Diffed(c, e, side, ts, book, sizes);
      DiffedEvents(c, e, side, ts, book, sizes);
      var more := t.events[|e.events|..];
      assert t.events == e.events + more;
      forall i | 0 <= i < |more| ensures !more[i].Refill? || more[i].side != other {
        assert more[i] == t.events[|e.events| + i];
      }
      FedExtend(e.events, more, other);
    }
  }

  ghost predicate WellFormed(ops: seq<Op>) {
    forall i :: 0 <= i < |ops| && ops[i].SnapOp? ==> DistinctBook(ops[i].book)
  }

  lemma {:induction false} SnapsDistinct(ops: seq<Op>, side: Side)
    requires WellFormed(ops)
    ensures forall i :: 0 <= i < |SideSnaps(ops, side)| ==> DistinctBook(SideSnaps(ops, side)[i].book)
  {
    if ops != [] {
      SnapsDistinct(ops[..|ops| - 1], side);
    }
  }

  /** On every run every refill answers exactly one earlier removal, and every removal feeds at most one
      refill: same side, same price, fewer than k_refill snapshots later, no gap reset in between. */
  lemma {:induction false} RefillsOfRun(c: Config, ops: seq<Op>, side: Side)
    requires WellFormed(ops)
    ensures SideOk(c, side, At(Run(c, ops), side), Run(c, ops).events, SideSnaps(ops, side))
    ensures RefillsOk(c, SideSnaps(ops, side), Run(c, ops).events, side) && Once(Fed(Run(c, ops).events, side))
  {
    hide SideOk, OnSnapshot, Once, Fed, RefillsOk;
    if ops == [] {
      assert Run(c, ops) == Fresh && Fresh.events == [] && SideSnaps(ops, side) == [];
      StartOk(c, side);
      FedOnce(c, side, At(Fresh, side), [], []);
    } else {
      var n := |ops| - 1;
      var before, op := ops[..n], ops[n];
      RefillsOfRun(c, before, side);
      var e := Run(c, before);
      match op {
        case TradeOp(t) =>
          assert SideSnaps(ops, side) == SideSnaps(before, side);
          TradeKeeps(c, e, t, side, SideSnaps(before, side));
        case SnapOp(s, ts, book) =>
          if s == side {
            SnapsDistinct(before, side);
            SnapKeepsOwn(c, e, side, ts, book, SideSnaps(before, side));
            assert SideSnaps(ops, side) == SideSnaps(before, side) + [Snap(ts, book)];
          } else {
            assert SideSnaps(ops, side) == SideSnaps(before, side);
            SnapKeepsOther(c, e, s, ts, book, side, SideSnaps(before, side));
          }
      }
      assert Run(c, ops) == Step(c, e, op);
      FedOnce(c, side, At(Run(c, ops), side), Run(c, ops).events, SideSnaps(ops, side));
    }
  }

  lemma StartOk(c: Config, side: Side)
    ensures SideOk(c, side, At(Fresh, side), [], [])
  {
  }

  lemma TradeKeeps(c: Config, e: Engine, t: Trade, side: Side, snaps: seq<Snap>)
    requires SideOk(c, side, At(e, side), e.events, snaps)
    ensures SideOk(c, side, At(e.(trades := e.trades + [t]), side), e.events, snaps)
  {
  }

  lemma FedOnce(c: Config, side: Side, s: SideState, events: seq<Event>, snaps: seq<Snap>)
    requires SideOk(c, side, s, events, snaps)
    ensures RefillsOk(c, snaps, events, side) && Once(Fed(events, side))
  {
    OnceLess(multiset{}, Waiting(s.pending), Fed(events, side));
    assert multiset{} + Fed(events, side) == Fed(events, side);
  }

  // ---------------------------------------------------------------- every event that is due

  /** The removals waiting at one price, oldest first. */
  function AtPrice(pending: seq<Pending>, price: real): seq<Pending> {
    if pending == [] then []
    else
      AtPrice(pending[..|pending| - 1], price)
      + if pending[|pending| - 1].price == price then [pending[|pending| - 1]] else []
  }

  lemma AtPriceSnoc(pending: seq<Pending>, p: Pending, price: real)
    ensures AtPrice(pending + [p], price) == AtPrice(pending, price) + if p.price == price then [p] else []
  {
    assert (pending + [p])[..|pending|] == pending;
  }

  lemma {:induction false} AtPriceConcat(a: seq<Pending>, b: seq<Pending>, price: real)
    ensures AtPrice(a + b, price) == AtPrice(a, price) + AtPrice(b, price)
  {
    if b == [] {
      assert a + b == a && AtPrice(b, price) == [];
    } else {
      hide AtPrice;
      var front, p := b[..|b| - 1], b[|b| - 1];
      AtPriceConcat(a, front, price);
      AtPriceSnoc(a + front, p, price);
      AtPriceSnoc(front, p, price);
      assert a + b == (a + front) + [p] && b == front + [p];
    }
  }

  lemma {:induction false} AtPriceMember(pending: seq<Pending>, price: real, p: Pending)
    ensures p in AtPrice(pending, price) <==> p in pending && p.price == price
  {
    if pending != [] {
      hide AtPrice;
      var front, last := pending[..|pending| - 1], pending[|pending| - 1];
      AtPriceMember(front, price, p);
      AtPriceSnoc(front, last, price);
      assert pending == front + [last];
    }
  }

  lemma NoneAtPrice(pending: seq<Pending>, price: real)
    requires forall i :: 0 <= i < |pending| ==> pending[i].price != price
    ensures AtPrice(pending, price) == []
  {
    hide AtPrice;
    if AtPrice(pending, price) != [] {
      AtPriceMember(pending, price, AtPrice(pending, price)[0]);
    }
  }

  /** The first removal at a price heads its queue; taking it away leaves the rest of that queue, and every
      other queue, as it was. */
  lemma QueueHead(pending: seq<Pending>, k: nat, price: real, q: real)
    requires k < |pending| && pending[k].price == price && forall i :: 0 <= i < k ==> pending[i].price != price
    ensures AtPrice(pending, price) != [] && AtPrice(pending, price)[0] == pending[k]
    ensures AtPrice(pending[..k] + pending[k + 1..], price) == AtPrice(pending, price)[1..]
    ensures q != price ==> AtPrice(pending[..k] + pending[k + 1..], q) == AtPrice(pending, q)
  {
    hide AtPrice;
    var a, p, b := pending[..k], pending[k], pending[k + 1..];
    assert pending == (a + [p]) + b;
    NoneAtPrice(a, price);
    AtPriceConcat(a + [p], b, price);
    AtPriceSnoc(a, p, price);
    AtPriceConcat(a, b, price);
    AtPriceConcat(a + [p], b, q);
    AtPriceSnoc(a, p, q);
    AtPriceConcat(a, b, q);
  }

  /** What one price quoted before and now gives rise to, `queue` being the removals waiting there. */
  function DueAt(c: Config, d: Diff, queue: seq<Pending>, price: real): seq<Event> {
    var change, traded := Qty(d.was, price) - Qty(d.now, price), Traded(d.trades, price, d.t0, d.t1);
    if change > 0.0 && change - traded > 0.0 then [Cancel(d.t1, d.side, price, change, traded, change - traded)]
    else if change < 0.0 && queue != [] && NearBest(c, d, price) then
      [Refill(d.t1, d.side, price, queue[0].removed, -change, queue[0].born, d.count)]
    else []
  }

  lemma DiffAtIs(c: Config, d: Diff, t: Tally, price: real, q: real)
    ensures DiffAt(c, d, t, price).events == t.events + DueAt(c, d, AtPrice(t.pending, price), price)
    ensures q != price ==> AtPrice(DiffAt(c, d, t, price).pending, q) == AtPrice(t.pending, q)
  {
    hide AtPrice, Qty, Traded, NearBest;
    var change := Qty(d.was, price) - Qty(d.now, price);
    if change > 0.0 {
      AtPriceSnoc(t.pending, Pending(price, change, c.kRefill, d.count), q);
    } else if FirstAt(t.pending, price).Some? {
      QueueHead(t.pending, FirstAt(t.pending, price).value, price, q);
    } else {
      NoneAtPrice(t.pending, price);
    }
  }

  function DueAll(c: Config, d: Diff, pending: seq<Pending>, prices: seq<real>): seq<Event> {
    if prices == [] then []
    else
      var n := |prices| - 1;
      DueAll(c, d, pending, prices[..n]) + DueAt(c, d, AtPrice(pending, prices[n]), prices[n])
  }

  /** Prices do not interfere: each is diffed as if it were alone. */
  lemma {:induction false} DiffAllIs(c: Config, d: Diff, prices: seq<real>, t: Tally, q: real)
    requires Distinct(prices)
    ensures DiffAll(c, d, prices, t).events == t.events + DueAll(c, d, t.pending, prices)
    ensures q !in prices ==> AtPrice(DiffAll(c, d, prices, t).pending, q) == AtPrice(t.pending, q)
  {
    if prices != [] {
      hide AtPrice, DiffAt, DueAt;
      var n := |prices| - 1;
      var front, price := prices[..n], prices[n];
      DiffAllIs(c, d, front, t, q);
      DiffAllIs(c, d, front, t, price);
      DiffAtIs(c, d, DiffAll(c, d, front, t), price, q);
      Associative(t.events, DueAll(c, d, t.pending, front), DueAt(c, d, AtPrice(t.pending, price), price));
    }
  }

  ghost predicate FromQueue(queue: seq<Pending>, e: Event) {
    e.Refill? ==> queue != [] && e.removed == queue[0].removed && e.born == queue[0].born
  }

  lemma DueAtIff(c: Config, d: Diff, p90: Option<real>, queue: seq<Pending>, price: real, e: Event)
    requires InBoth(d.was, d.now, price)
    ensures e in DueAt(c, d, queue, price) <==> !e.Wall? && e.price == price && EventOk(c, d, p90, e) && FromQueue(queue, e)
    ensures |DueAt(c, d, queue, price)| <= 1
  {
    hide Qty, Traded, NearBest, InBoth;
  }

  lemma {:induction false} DueAllMember(c: Config, d: Diff, pending: seq<Pending>, prices: seq<real>, e: Event)
    ensures e in DueAll(c, d, pending, prices) <==>
            exists i :: 0 <= i < |prices| && e in DueAt(c, d, AtPrice(pending, prices[i]), prices[i])
  {
    if prices != [] {
      hide AtPrice, DueAt;
      var n := |prices| - 1;
      var front := prices[..n];
      DueAllMember(c, d, pending, front, e);
      assert forall i :: 0 <= i < n ==> front[i] == prices[i];
    }
  }

  lemma {:induction false} SharedMember(p: Book, b: Book, x: real)
    ensures x in Shared(p, b) <==> InBoth(p, b, x)
  {
    SharedQuoted(p, b, x);
    if InBoth(p, b, x) {
      var i :| 0 <= i < |p| && p[i].0 == x;
      SharedAll(p, b, i);
    }
  }

  lemma {:induction false} SharedAll(p: Book, b: Book, i: nat)
    requires i < |p| && Quotes(b, p[i].0)
    ensures p[i].0 in Shared(p, b)
  {
    if i < |p| - 1 {
      SharedAll(p[..|p| - 1], b, i);
    }
  }

  lemma CommonMember(p: Book, b: Book, x: real)
    ensures x in Common(p, b) <==> InBoth(p, b, x)
  {
    hide InBoth, Shared;
    SharedMember(p, b, x);
    SortMember(Shared(p, b), AtMost, x);
  }

  /** The cancels and refills of a diff: exactly those that are due. */
  lemma DueIff(c: Config, d: Diff, p90: Option<real>, pending: seq<Pending>, e: Event)
    ensures e in DueAll(c, d, pending, Common(d.was, d.now)) <==>
            !e.Wall? && EventOk(c, d, p90, e) && FromQueue(AtPrice(pending, e.price), e)
  {
    hide DueAll, DueAt, EventOk, AtPrice, FromQueue, Common, InBoth;
    var prices := Common(d.was, d.now);
    DueAllMember(c, d, pending, prices, e);
    if i :| 0 <= i < |prices| && e in DueAt(c, d, AtPrice(pending, prices[i]), prices[i]) {
      CommonMember(d.was, d.now, prices[i]);
      DueAtIff(c, d, p90, AtPrice(pending, prices[i]), prices[i], e);
    }
    if !e.Wall? && EventOk(c, d, p90, e) && FromQueue(AtPrice(pending, e.price), e) {
      EventInBoth(c, d, p90, e);
      CommonMember(d.was, d.now, e.price);
      DueAtIff(c, d, p90, AtPrice(pending, e.price), e.price, e);
      var i :| 0 <= i < |prices| && prices[i] == e.price;
      assert e in DueAt(c, d, AtPrice(pending, prices[i]), prices[i]);
    }
  }

  lemma EventInBoth(c: Config, d: Diff, p90: Option<real>, e: Event)
    requires EventOk(c, d, p90, e) && !e.Wall?
    ensures InBoth(d.was, d.now, e.price)
  {
  }

  lemma {:induction false} WallsMember(c: Config, d: Diff, p90: real, levels: Book, e: Event)
    ensures e in Walls(c, d, p90, levels) <==> exists i :: 0 <= i < |levels| && e in WallAt(c, d, p90, levels[i])
  {
    if levels != [] {
      hide WallAt;
      var n := |levels| - 1;
      WallsMember(c, d, p90, levels[..n], e);
      assert forall i :: 0 <= i < n ==> levels[..n][i] == levels[i];
    }
  }

  lemma WallAtIff(c: Config, d: Diff, p90: real, level: (real, real), e: Event)
    requires level in d.was
    ensures e in WallAt(c, d, p90, level) <==> e.Wall? && (e.price, e.removed) == level && EventOk(c, d, Some(p90), e)
  {
    hide Traded, Quotes, Lowest, Highest, Qty, DistinctBook;
    if DistinctBook(d.was) {
      QtyOf(d.was, level);
    }
  }

  /** The walls of a diff: exactly those that are due. */
  lemma WallIff(c: Config, d: Diff, p90: real, e: Event)
    ensures e in Walls(c, d, p90, d.was) <==> e.Wall? && EventOk(c, d, Some(p90), e)
  {
    hide Walls, WallAt, EventOk;
    WallsMember(c, d, p90, d.was, e);
    if i :| 0 <= i < |d.was| && e in WallAt(c, d, p90, d.was[i]) {
      WallAtIff(c, d, p90, d.was[i], e);
    }
    if e.Wall? && EventOk(c, d, Some(p90), e) {
      WallIn(c, d, Some(p90), e);
      var i :| 0 <= i < |d.was| && d.was[i] == (e.price, e.removed);
      WallAtIff(c, d, p90, d.was[i], e);
    }
  }

  lemma WallIn(c: Config, d: Diff, p90: Option<real>, e: Event)
    requires EventOk(c, d, p90, e) && e.Wall?
    ensures (e.price, e.removed) in d.was && p90.Some?
  {
  }

  /** What a diff appends: exactly the events that are due. */
  ghost predicate Appends(c: Config, d: Diff, p90: Option<real>, pending: seq<Pending>, before: seq<Event>, after: seq<Event>) {
    && before <= after
    && forall e :: e in after[|before|..] <==> EventOk(c, d, p90, e) && FromQueue(AtPrice(pending, e.price), e)
  }

  lemma DiffedIs(c: Config, e: Engine, side: Side, ts: int, book: Book, sizes: seq<real>) returns (due: seq<Event>, walls: seq<Event>)
    requires At(e, side).prev.Some? && DistinctBook(At(e, side).prev.value.book)
    ensures var d := DiffOf(e, side, ts, book);
            && due == DueAll(c, d, At(e, side).pending, Common(d.was, d.now))
            && walls == (if P90(sizes).Some? then Walls(c, d, P90(sizes).value, d.was) else [])
            && Diffed(c, e, side, ts, book, sizes).events == e.events + due + walls
  {
    hide DiffAll, DueAll, Walls, Common, P90, AtPrice, DistinctBook;
    var d := DiffOf(e, side, ts, book);
    CommonDistinct(d.was, d.now);
    DiffAllIs(c, d, Common(d.was, d.now), Tally(At(e, side).pending, e.events), 0.0);
    due := DueAll(c, d, At(e, side).pending, Common(d.was, d.now));
    walls := if P90(sizes).Some? then Walls(c, d, P90(sizes).value, d.was) else [];
  }

  lemma DiffAppends(c: Config, e: Engine, side: Side, ts: int, book: Book, sizes: seq<real>)
    requires At(e, side).prev.Some? && DistinctBook(At(e, side).prev.value.book)
    ensures Appends(c, DiffOf(e, side, ts, book), P90(sizes), At(e, side).pending, e.events, Diffed(c, e, side, ts, book, sizes).events)
  {
    var due, walls := DiffedIs(c, e, side, ts, book, sizes);
    hide *;
    var d, p90, pending := DiffOf(e, side, ts, book), P90(sizes), At(e, side).pending;
    forall ev ensures ev in due + walls <==> EventOk(c, d, p90, ev) && FromQueue(AtPrice(pending, ev.price), ev) {
      NewIff(c, d, p90, pending, walls, ev);
    }
    Associative(e.events, due, walls);
    AppendsBy(c, d, p90, pending, e.events, due + walls);
  }

  lemma AppendsBy(c: Config, d: Diff, p90: Option<real>, pending: seq<Pending>, before: seq<Event>, more: seq<Event>)
    requires forall e :: e in more <==> EventOk(c, d, p90, e) && FromQueue(AtPrice(pending, e.price), e)
    ensures Appends(c, d, p90, pending, before, before + more)
  {
    hide EventOk, FromQueue, AtPrice;
    assert (before + more)[|before|..] == more;
  }

  lemma NewIff(c: Config, d: Diff, p90: Option<real>, pending: seq<Pending>, walls: seq<Event>, e: Event)
    requires walls == if p90.Some? then Walls(c, d, p90.value, d.was) else []
    ensures e in DueAll(c, d, pending, Common(d.was, d.now)) + walls <==>
            EventOk(c, d, p90, e) && FromQueue(AtPrice(pending, e.price), e)
  {
    hide *;
    DueIff(c, d, p90, pending, e);
    WallNotRefill(AtPrice(pending, e.price), e);
    if p90.Some? {
      WallIff(c, d, p90.value, e);
    } else {
      NoWall(c, d, e);
    }
  }

  lemma NoWall(c: Config, d: Diff, e: Event)
    ensures EventOk(c, d, None, e) ==> !e.Wall?
  {
  }

  lemma WallNotRefill(queue: seq<Pending>, e: Event)
    ensures e.Wall? ==> FromQueue(queue, e)
  {
  }

  // ---------------------------------------------------------------- every refill that is due, on whole runs

  /** Snapshot number `m` took quantity away at `price`, and no snapshot from it on tripped the gap guard. */
  ghost predicate Drops(c: Config, snaps: seq<Snap>, m: nat, price: real) {
    && 2 <= m <= |snaps| && InBoth(snaps[m - 2].book, snaps[m - 1].book, price)
    && Qty(snaps[m - 1].book, price) < Qty(snaps[m - 2].book, price)
    && NoReset(c, snaps, m, |snaps|)
  }

  /** Every such removal that is not too old is waiting or has fed a refill. */
  ghost predicate Complete(c: Config, snaps: seq<Snap>, bag: Bag, within: int) {
    forall m: nat, price :: Drops(c, snaps, m, price) && |snaps| - m < within ==> (m, price) in bag
  }

  ghost predicate BornOrder(pending: seq<Pending>, last: nat) {
    && (forall i, j :: 0 <= i < j < |pending| ==> pending[i].born <= pending[j].born)
    && (forall i :: 0 <= i < |pending| ==> pending[i].born <= last)
  }

  lemma BagSub(a: Bag, b: Bag, x: (nat, real))
    requires a <= b && x in a
    ensures x in b
  {
  }

  lemma RefillMoves(t: Tally, k: nat, e: Event, side: Side)
    requires k < |t.pending| && e.Refill? && e.side == side && e.born == t.pending[k].born && e.price == t.pending[k].price
    ensures Waiting(t.pending[..k] + t.pending[k + 1..]) + Fed(t.events + [e], side) == Waiting(t.pending) + Fed(t.events, side)
  {
    hide Waiting, Fed;
    WaitingRemove(t.pending, k);
    FedSnoc(t.events, e, side);
    BagAssociative(Waiting(t.pending[..k] + t.pending[k + 1..]), Fed(t.events, side), multiset{(e.born, e.price)});
  }

  /** Diffing a price loses no removal, and adds the one it finds. */
  lemma DiffAtBag(c: Config, d: Diff, t: Tally, price: real)
    ensures Books(t, d.side) <= Books(DiffAt(c, d, t, price), d.side)
    ensures Qty(d.now, price) < Qty(d.was, price) ==> (d.count, price) in Books(DiffAt(c, d, t, price), d.side)
  {
    hide Waiting, Fed, Qty, Traded, NearBest;
    var change, out := Qty(d.was, price) - Qty(d.now, price), DiffAt(c, d, t, price);
    if change > 0.0 {
      WaitingSnoc(t.pending, Pending(price, change, c.kRefill, d.count));
      FedExtend(t.events, out.events[|t.events|..], d.side);
      assert out.events == t.events + out.events[|t.events|..];
    } else if change < 0.0 && FirstAt(t.pending, price).Some? && NearBest(c, d, price) {
      var k := FirstAt(t.pending, price).value;
      RefillMoves(t, k, Refill(d.t1, d.side, price, t.pending[k].removed, -change, t.pending[k].born, d.count), d.side);
    }
  }

  ghost function Books(t: Tally, side: Side): Bag {
    Waiting(t.pending) + Fed(t.events, side)
  }

  lemma {:induction false} DiffAllBag(c: Config, d: Diff, prices: seq<real>, t: Tally)
    ensures Books(t, d.side) <= Books(DiffAll(c, d, prices, t), d.side)
    ensures forall i :: 0 <= i < |prices| && Qty(d.now, prices[i]) < Qty(d.was, prices[i]) ==>
              (d.count, prices[i]) in Books(DiffAll(c, d, prices, t), d.side)
  {
    if prices != [] {
      hide DiffAt, Books, Qty;
      var n := |prices| - 1;
      var front := prices[..n];
      DiffAllBag(c, d, front, t);
      var mid := DiffAll(c, d, front, t);
      DiffAtBag(c, d, mid, prices[n]);
      assert forall i :: 0 <= i < n ==> front[i] == prices[i];
      BagTrans(Books(t, d.side), Books(mid, d.side), Books(DiffAt(c, d, mid, prices[n]), d.side));
    } else {
      assert DiffAll(c, d, prices, t) == t;
    }
  }

  lemma BagTrans(a: Bag, b: Bag, c: Bag)
    requires a <= b <= c
    ensures a <= c && forall x :: x in b ==> x in c
  {
  }

  lemma DiffAtOrder(c: Config, d: Diff, t: Tally, price: real)
    requires BornOrder(t.pending, d.count)
    ensures BornOrder(DiffAt(c, d, t, price).pending, d.count)
  {
    hide Qty, Traded, NearBest;
    if FirstAt(t.pending, price).Some? {
      var k := FirstAt(t.pending, price).value;
      var rest := t.pending[..k] + t.pending[k + 1..];
      assert forall i :: 0 <= i < |rest| ==> rest[i] == t.pending[if i < k then i else i + 1];
    }
  }

  lemma {:induction false} DiffAllOrder(c: Config, d: Diff, prices: seq<real>, t: Tally)
    requires BornOrder(t.pending, d.count)
    ensures BornOrder(DiffAll(c, d, prices, t).pending, d.count)
  {
    if prices != [] {
      hide DiffAt, BornOrder;
      DiffAllOrder(c, d, prices[..|prices| - 1], t);
      DiffAtOrder(c, d, DiffAll(c, d, prices[..|prices| - 1], t), prices[|prices| - 1]);
    }
  }

  lemma {:induction false} AgedOrder(pending: seq<Pending>, last: nat)
    requires BornOrder(pending, last)
    ensures BornOrder(Aged(pending), last)
  {
    if pending != [] {
      var n := |pending| - 1;
      var front := pending[..n];
      assert BornOrder(front, pending[n].born);
      AgedOrder(front, pending[n].born);
    }
  }

  lemma {:induction false} AgedKeeps(pending: seq<Pending>, k: nat)
    requires k < |pending| && pending[k].snapsLeft > 1
    ensures (pending[k].born, pending[k].price) in Waiting(Aged(pending))
  {
    hide Waiting;
    var n := |pending| - 1;
    var front, p := Aged(pending[..n]), pending[n].(snapsLeft := pending[n].snapsLeft - 1);
    WaitingSnoc(front, p);
    if k < n {
      AgedKeeps(pending[..n], k);
      assert front + [] == front;
    }
  }

  /** Ageing drops only what is too old. */
  lemma AgedComplete(c: Config, snaps: seq<Snap>, pending: seq<Pending>, fed: Bag)
    requires Complete(c, snaps, Waiting(pending) + fed, c.kRefill)
    requires forall i :: 0 <= i < |pending| ==> PendingOk(c, snaps, pending[i], c.kRefill)
    ensures Complete(c, snaps, Waiting(Aged(pending)) + fed, c.kRefill - 1)
  {
    hide Waiting, Aged, Drops;
    forall m: nat, price | Drops(c, snaps, m, price) && |snaps| - m < c.kRefill - 1
      ensures (m, price) in Waiting(Aged(pending)) + fed
    {
      assert (m, price) in Waiting(pending) + fed;
      if (m, price) !in fed {
        WaitingMember(pending, (m, price));
        var i :| 0 <= i < |pending| && pending[i].born == m && pending[i].price == price;
        assert PendingOk(c, snaps, pending[i], c.kRefill);
        AgedKeeps(pending, i);
      }
    }
  }

  lemma DropsNext(c: Config, snaps: seq<Snap>, snap: Snap, m: nat, price: real)
    ensures m <= |snaps| && Drops(c, snaps + [snap], m, price) ==> Drops(c, snaps, m, price)
    ensures m <= |snaps| && Drops(c, snaps, m, price) && snap.ts - snaps[|snaps| - 1].ts <= c.gapGuard ==> Drops(c, snaps + [snap], m, price)
  {
    hide InBoth, Qty;
    var more := snaps + [snap];
    assert forall i :: 0 <= i < |snaps| ==> more[i] == snaps[i];
    if m <= |snaps| && Drops(c, more, m, price) {
      forall i | m - 1 <= i < |snaps| ensures snaps[i].ts - snaps[i - 1].ts <= c.gapGuard {
        assert more[i].ts - more[i - 1].ts <= c.gapGuard;
      }
    }
  }

  /** A reset leaves nothing to wait for. */
  lemma ResetComplete(c: Config, snaps: seq<Snap>, bag: Bag, within: int)
    requires |snaps| >= 2 ==> snaps[|snaps| - 1].ts - snaps[|snaps| - 2].ts > c.gapGuard
    ensures Complete(c, snaps, bag, within)
  {
    forall m: nat, price ensures !Drops(c, snaps, m, price) {
      if 2 <= m <= |snaps| {
        assert !NoReset(c, snaps, m, |snaps|);
      }
    }
  }

  lemma DiffComplete(c: Config, snaps: seq<Snap>, d: Diff, t: Tally)
    requires Latest(c, snaps, d) && Complete(c, snaps[..|snaps| - 1], Waiting(t.pending) + Fed(t.events, d.side), c.kRefill - 1)
    ensures var out := DiffAll(c, d, Common(d.was, d.now), t);
            Complete(c, snaps, Waiting(out.pending) + Fed(out.events, d.side), c.kRefill)
  {
    hide DiffAll, Common, Waiting, Fed, NoReset;
    var prices := Common(d.was, d.now);
    var out := DiffAll(c, d, prices, t);
    var was, bag := Waiting(t.pending) + Fed(t.events, d.side), Waiting(out.pending) + Fed(out.events, d.side);
    DiffAllBag(c, d, prices, t);
    var before, snap := snaps[..|snaps| - 1], snaps[|snaps| - 1];
    assert snaps == before + [snap];
    forall m: nat, price | Drops(c, snaps, m, price) && |snaps| - m < c.kRefill ensures (m, price) in bag {
      if m == |snaps| {
        CommonMember(d.was, d.now, price);
        var i :| 0 <= i < |prices| && prices[i] == price;
      } else {
        DropsNext(c, before, snap, m, price);
        BagSub(was, bag, (m, price));
      }
    }
  }

  /** What a run keeps for one side: every removal that can still be answered is waiting, oldest first. */
  ghost predicate SideFull(c: Config, side: Side, s: SideState, events: seq<Event>, snaps: seq<Snap>) {
    && SideOk(c, side, s, events, snaps) && BornOrder(s.pending, |snaps|)
    && Complete(c, snaps, Waiting(s.pending) + Fed(events, side), c.kRefill - 1)
  }

  lemma DiffFull(c: Config, e: Engine, side: Side, ts: int, book: Book, sizes: seq<real>, snaps: seq<Snap>)
    requires SideFull(c, side, At(e, side), e.events, snaps) && snaps != [] && DistinctBook(snaps[|snaps| - 1].book)
    requires !Trips(c, At(e, side), ts)
    ensures var t, more := Diffed(c, e, side, ts, book, sizes), snaps + [Snap(ts, book)];
            BornOrder(Aged(t.pending), |more|) && Complete(c, more, Waiting(Aged(t.pending)) + Fed(t.events, side), c.kRefill - 1)
  {
    hide DiffAll, Common, Waiting, Fed, Aged, Walls, Complete, P90, StandingOk, RefillsOk, Once, DistinctBook;
    var more := snaps + [Snap(ts, book)];
    var d, start := DiffOf(e, side, ts, book), Tally(At(e, side).pending, e.events);
    assert more[..|more| - 1] == snaps;
    DiffComplete(c, more, d, start);
    DiffAllOrder(c, d, Common(d.was, d.now), start);
    var out := DiffAll(c, d, Common(d.was, d.now), start);
    DiffedKeeps(c, e, side, ts, book, sizes, snaps);
    if P90(sizes).Some? {
      WallsOk(c, d, P90(sizes).value, d.was);
      FedExtend(out.events, Walls(c, d, P90(sizes).value, d.was), side);
    }
    AgedOrder(out.pending, |more|);
    AgedComplete(c, more, out.pending, Fed(out.events, side));
  }

  lemma SnapFullOwn(c: Config, e: Engine, side: Side, ts: int, book: Book, snaps: seq<Snap>)
    requires SideFull(c, side, At(e, side), e.events, snaps) && (snaps != [] ==> DistinctBook(snaps[|snaps| - 1].book))
    ensures var r := OnSnapshot(c, e, side, ts, book); SideFull(c, side, At(r, side), r.events, snaps + [Snap(ts, book)])
  {
    hide Diffed, Aged, Waiting, Fed, Complete, Remembered, After, StandingOk, RefillsOk, Once, DistinctBook;
    var s, more := At(e, side), snaps + [Snap(ts, book)];
    SnapKeepsOwn(c, e, side, ts, book, snaps);
    if s.prev.None? || Trips(c, s, ts) {
      var r := OnSnapshot(c, e, side, ts, book);
      ResetComplete(c, more, Waiting(At(r, side).pending) + Fed(r.events, side), c.kRefill - 1);
    } else {
      DiffFull(c, e, side, ts, book, Remembered(c, e.sizes, book), snaps);
    }
  }

  lemma OtherFed(c: Config, e: Engine, side: Side, ts: int, book: Book, other: Side)
    requires other != side
    ensures var r := OnSnapshot(c, e, side, ts, book); At(r, other) == At(e, other) && Fed(r.events, other) == Fed(e.events, other)
  {
    hide Diffed, Fed, Extends, P90, Remembered, After, Aged;
    var s, r := At(e, side), OnSnapshot(c, e, side, ts, book);
    if s.prev.Some? && !Trips(c, s, ts) {
      SnapshotEvents(c, e, side, ts, book);
      NewOnSide(c, DiffOf(e, side, ts, book), P90(Remembered(c, e.sizes, book)), e.events, r.events, other);
    }
  }

  lemma NewOnSide(c: Config, d: Diff, p90: Option<real>, before: seq<Event>, after: seq<Event>, other: Side)
    requires Extends(c, d, p90, before, after) && other != d.side
    ensures Fed(after, other) == Fed(before, other)
  {
    hide Fed;
    var more := after[|before|..];
    assert after == before + more;
    forall i | 0 <= i < |more| ensures !more[i].Refill? || more[i].side != other {
      assert more[i] == after[|before| + i];
    }
    FedExtend(before, more, other);
  }

  lemma {:induction false} FullOfRun(c: Config, ops: seq<Op>, side: Side)
    requires WellFormed(ops)
    ensures SideFull(c, side, At(Run(c, ops), side), Run(c, ops).events, SideSnaps(ops, side))
  {
    hide *;
    if ops == [] {
      NothingRun(c, side);
      StartFull(c, side);
    } else {
      var before, op := ops[..|ops| - 1], ops[|ops| - 1];
      RunNext(c, ops, side);
      FrontFormed(ops);
      FullOfRun(c, before, side);
      RefillsOfRun(c, ops, side);
      SnapsDistinct(before, side);
      FullStep(c, Run(c, before), op, side, SideSnaps(before, side));
    }
  }

  lemma NothingRun(c: Config, side: Side)
    ensures Run(c, []) == Fresh && Fresh.events == [] && SideSnaps([], side) == []
  {
  }

  lemma RunNext(c: Config, ops: seq<Op>, side: Side)
    requires ops != []
    ensures var before, op := ops[..|ops| - 1], ops[|ops| - 1];
            && Run(c, ops) == Step(c, Run(c, before), op)
            && SideSnaps(ops, side) == SideSnaps(before, side) + OwnSnap(op, side)
  {
    hide Step;
  }

  function OwnSnap(op: Op, side: Side): seq<Snap> {
    if op.SnapOp? && op.side == side then [Snap(op.ts, op.book)] else []
  }

  lemma FrontFormed(ops: seq<Op>)
    requires WellFormed(ops) && ops != []
    ensures WellFormed(ops[..|ops| - 1])
  {
  }

  lemma FullStep(c: Config, e: Engine, op: Op, side: Side, snaps: seq<Snap>)
    requires SideFull(c, side, At(e, side), e.events, snaps)
    requires forall i :: 0 <= i < |snaps| ==> DistinctBook(snaps[i].book)
    requires SideOk(c, side, At(Step(c, e, op), side), Step(c, e, op).events, snaps + OwnSnap(op, side))
    ensures SideFull(c, side, At(Step(c, e, op), side), Step(c, e, op).events, snaps + OwnSnap(op, side))
  {
    hide SideFull, OnSnapshot, SideOk, DistinctBook, Fed;
    assert snaps + [] == snaps;
    match op
    case TradeOp(t) =>
      FullSame(c, side, e, e.(trades := e.trades + [t]), snaps);
    case SnapOp(s, ts, book) =>
      if s == side {
        SnapFullOwn(c, e, side, ts, book, snaps);
      } else {
        OtherFed(c, e, s, ts, book, side);
        FullSame(c, side, e, OnSnapshot(c, e, s, ts, book), snaps);
      }
  }

  lemma StartFull(c: Config, side: Side)
    ensures SideFull(c, side, At(Fresh, side), [], [])
  {
  }

  lemma FullSame(c: Config, side: Side, e: Engine, r: Engine, snaps: seq<Snap>)
    requires SideFull(c, side, At(e, side), e.events, snaps) && At(r, side) == At(e, side)
    requires Fed(r.events, side) == Fed(e.events, side) && SideOk(c, side, At(r, side), r.events, snaps)
    ensures SideFull(c, side, At(r, side), r.events, snaps)
  {
    hide SideOk, Complete, BornOrder;
  }

  /** Removal number `m` at `price` can be answered by the last snapshot: fewer than k_refill snapshots back,
      no reset between, and no refill has answered it. */
  ghost predicate Awaits(c: Config, snaps: seq<Snap>, fed: Bag, m: nat, price: real) {
    Drops(c, snaps, m, price) && m < |snaps| && |snaps| - m < c.kRefill && (m, price) !in fed
  }

  ghost predicate Oldest(c: Config, snaps: seq<Snap>, fed: Bag, m: nat, price: real) {
    Awaits(c, snaps, fed, m, price) && forall k: nat :: k < m ==> !Awaits(c, snaps, fed, k, price)
  }

  /** Where a removal's quantity comes from. */
  ghost function RemovedAt(snaps: seq<Snap>, m: nat, price: real): real
    requires 2 <= m <= |snaps|
  {
    Qty(snaps[m - 2].book, price) - Qty(snaps[m - 1].book, price)
  }

  /** The queue at a price holds exactly the removals the next snapshot can answer. */
  lemma QueueAwaits(c: Config, side: Side, s: SideState, events: seq<Event>, snaps: seq<Snap>, snap: Snap, price: real, m: nat)
    requires SideFull(c, side, s, events, snaps) && snaps != [] && snap.ts - snaps[|snaps| - 1].ts <= c.gapGuard
    ensures Awaits(c, snaps + [snap], Fed(events, side), m, price) <==>
            exists i :: 0 <= i < |s.pending| && s.pending[i].born == m && s.pending[i].price == price
  {
    hide Waiting, Fed, InBoth, Qty, RefillsOk;
    DropsNext(c, snaps, snap, m, price);
    if Awaits(c, snaps + [snap], Fed(events, side), m, price) {
      assert (m, price) in Waiting(s.pending) + Fed(events, side);
      WaitingMember(s.pending, (m, price));
    }
    if i :| 0 <= i < |s.pending| && s.pending[i].born == m && s.pending[i].price == price {
      assert PendingOk(c, snaps, s.pending[i], c.kRefill - 1);
      WaitingHas(s.pending, i);
      assert (Waiting(s.pending) + Fed(events, side))[(m, price)] <= 1;
    }
  }

  lemma {:induction false} WaitingHas(s: seq<Pending>, i: nat)
    requires i < |s|
    ensures (s[i].born, s[i].price) in Waiting(s)
  {
    if i < |s| - 1 {
      WaitingHas(s[..|s| - 1], i);
    }
  }

  lemma AtPriceOrder(pending: seq<Pending>, last: nat, price: real, p: Pending)
    requires BornOrder(pending, last) && p in pending && p.price == price
    ensures AtPrice(pending, price) != [] && AtPrice(pending, price)[0].born <= p.born
  {
    hide AtPrice;
    AtPriceMember(pending, price, p);
    var first := FirstAt(pending, price);
    QueueHead(pending, first.value, price, price);
    var k :| 0 <= k < |pending| && pending[k] == p;
    assert first.value <= k;
  }

  /** A refill takes the head of its queue if and only if it answers the oldest removal that can be answered. */
  ghost predicate AnswersOldest(c: Config, snaps: seq<Snap>, fed: Bag, e: Event) {
    e.Refill? ==> Oldest(c, snaps, fed, e.born, e.price) && e.removed == RemovedAt(snaps, e.born, e.price)
  }

  lemma HeadIsOldest(c: Config, side: Side, s: SideState, events: seq<Event>, snaps: seq<Snap>, snap: Snap, e: Event)
    requires SideFull(c, side, s, events, snaps) && snaps != [] && snap.ts - snaps[|snaps| - 1].ts <= c.gapGuard
    ensures FromQueue(AtPrice(s.pending, e.price), e) <==> AnswersOldest(c, snaps + [snap], Fed(events, side), e)
  {
    if e.Refill? {
      hide SideFull, AtPrice, Awaits, Fed;
      var queue, more, fed := AtPrice(s.pending, e.price), snaps + [snap], Fed(events, side);
      if FromQueue(queue, e) {
        HeadAwaits(c, side, s, events, snaps, snap, e.price);
      } else if Oldest(c, more, fed, e.born, e.price) && e.removed == RemovedAt(more, e.born, e.price) {
        QueueAwaits(c, side, s, events, snaps, snap, e.price, e.born);
        HeadAwaits(c, side, s, events, snaps, snap, e.price);
      }
    }
  }

  /** The head of a queue is the oldest removal that can be answered, and holds its quantity. */
  lemma HeadAwaits(c: Config, side: Side, s: SideState, events: seq<Event>, snaps: seq<Snap>, snap: Snap, price: real)
    requires SideFull(c, side, s, events, snaps) && snaps != [] && snap.ts - snaps[|snaps| - 1].ts <= c.gapGuard
    ensures (exists i :: 0 <= i < |s.pending| && s.pending[i].price == price) ==> AtPrice(s.pending, price) != []
    ensures AtPrice(s.pending, price) != [] ==>
              var p, more := AtPrice(s.pending, price)[0], snaps + [snap];
              && Oldest(c, more, Fed(events, side), p.born, price)
              && 2 <= p.born <= |more| && p.removed == RemovedAt(more, p.born, price)
  {
    hide *;
    if i :| 0 <= i < |s.pending| && s.pending[i].price == price {
      FullMeans(c, side, s, events, snaps);
      AtPriceOrder(s.pending, |snaps|, price, s.pending[i]);
    }
    if AtPrice(s.pending, price) != [] {
      FirstAwaits(c, side, s, events, snaps, snap, price);
    }
  }

  lemma FirstAwaits(c: Config, side: Side, s: SideState, events: seq<Event>, snaps: seq<Snap>, snap: Snap, price: real)
    requires SideFull(c, side, s, events, snaps) && snaps != [] && snap.ts - snaps[|snaps| - 1].ts <= c.gapGuard
    requires AtPrice(s.pending, price) != []
    ensures var p, more := AtPrice(s.pending, price)[0], snaps + [snap];
            && Oldest(c, more, Fed(events, side), p.born, price)
            && 2 <= p.born <= |more| && p.removed == RemovedAt(more, p.born, price)
  {
    hide Awaits, AtPrice, Fed, SideFull, BornOrder, PendingOk, Qty;
    var more, p := snaps + [snap], AtPrice(s.pending, price)[0];
    FullMeans(c, side, s, events, snaps);
    AtPriceMember(s.pending, price, p);
    var i :| 0 <= i < |s.pending| && s.pending[i] == p;
    PendingRemoved(c, snaps, snap, p);
    QueueAwaits(c, side, s, events, snaps, snap, price, p.born);
    forall k: nat | k < p.born ensures !Awaits(c, more, Fed(events, side), k, price) {
      QueueAwaits(c, side, s, events, snaps, snap, price, k);
      NoOlder(s.pending, |snaps|, price, k);
    }
  }

  lemma PendingRemoved(c: Config, snaps: seq<Snap>, snap: Snap, p: Pending)
    requires PendingOk(c, snaps, p, c.kRefill - 1)
    ensures 2 <= p.born <= |snaps| && p.removed == RemovedAt(snaps + [snap], p.born, p.price)
  {
    hide InBoth, NoReset, Qty;
  }

  lemma NoOlder(pending: seq<Pending>, last: nat, price: real, k: nat)
    requires BornOrder(pending, last) && AtPrice(pending, price) != [] && k < AtPrice(pending, price)[0].born
    ensures !exists i :: 0 <= i < |pending| && pending[i].born == k && pending[i].price == price
  {
    hide AtPrice;
    if i :| 0 <= i < |pending| && pending[i].born == k && pending[i].price == price {
      AtPriceOrder(pending, last, price, pending[i]);
    }
  }

  lemma FullMeans(c: Config, side: Side, s: SideState, events: seq<Event>, snaps: seq<Snap>)
    requires SideFull(c, side, s, events, snaps)
    ensures BornOrder(s.pending, |snaps|)
    ensures s.count == |snaps| && s.prev == (if snaps == [] then None else Some(snaps[|snaps| - 1]))
    ensures forall i :: 0 <= i < |s.pending| ==> PendingOk(c, snaps, s.pending[i], c.kRefill - 1)
  {
    hide Complete, Once, RefillsOk;
  }

  // ---------------------------------------------------------------- one event a price, in order of price

  /** Cancels and refills by ascending price, then walls; no price twice. */
  ghost predicate EventOrder(more: seq<Event>) {
    forall i, j :: 0 <= i < j < |more| ==>
      more[i].price != more[j].price && (more[j].Wall? || (!more[i].Wall? && more[i].price < more[j].price))
  }

  ghost predicate RealsIncrease(s: seq<real>) {
    forall i, j :: 0 <= i < j < |s| ==> s[i] < s[j]
  }

  lemma CommonIncreases(p: Book, b: Book)
    requires DistinctBook(p)
    ensures RealsIncrease(Common(p, b))
  {
    hide Shared, DistinctBook;
    CommonDistinct(p, b);
    SortSorted(Shared(p, b), AtMost);
    var s := Common(p, b);
    forall i, j | 0 <= i < j < |s| ensures s[i] < s[j] {
      assert AtMost(s[i], s[j]) && s[i] != s[j];
    }
  }

  lemma {:induction false} DueOrder(c: Config, d: Diff, pending: seq<Pending>, prices: seq<real>)
    requires RealsIncrease(prices) && forall i :: 0 <= i < |prices| ==> InBoth(d.was, d.now, prices[i])
    ensures EventOrder(DueAll(c, d, pending, prices))
    ensures forall i :: 0 <= i < |DueAll(c, d, pending, prices)| ==>
              !DueAll(c, d, pending, prices)[i].Wall? && DueAll(c, d, pending, prices)[i].price in prices
  {
    if prices != [] {
      hide DueAt, AtPrice, InBoth;
      var n := |prices| - 1;
      var front, price := prices[..n], prices[n];
      DueOrder(c, d, pending, front);
      var due, one := DueAll(c, d, pending, front), DueAt(c, d, AtPrice(pending, price), price);
      DueOne(c, d, AtPrice(pending, price), price);
      forall i | 0 <= i < |due| ensures due[i].price < price && due[i].price in prices {
        var k :| 0 <= k < |front| && front[k] == due[i].price;
        assert prices[k] < prices[n];
      }
    }
  }

  lemma DueOne(c: Config, d: Diff, queue: seq<Pending>, price: real)
    ensures |DueAt(c, d, queue, price)| <= 1
    ensures forall i :: 0 <= i < |DueAt(c, d, queue, price)| ==> !DueAt(c, d, queue, price)[i].Wall? && DueAt(c, d, queue, price)[i].price == price
  {
    hide Qty, Traded, NearBest;
  }

  lemma WallOne(c: Config, d: Diff, p90: real, level: (real, real))
    ensures |WallAt(c, d, p90, level)| <= 1
    ensures forall i :: 0 <= i < |WallAt(c, d, p90, level)| ==>
              WallAt(c, d, p90, level)[i].Wall? && WallAt(c, d, p90, level)[i].price == level.0 && !Quotes(d.now, level.0)
  {
    hide Quotes, Traded, Lowest, Highest;
  }

  lemma {:induction false} WallsOrder(c: Config, d: Diff, p90: real, levels: Book)
    requires DistinctBook(levels)
    ensures EventOrder(Walls(c, d, p90, levels))
    ensures forall i :: 0 <= i < |Walls(c, d, p90, levels)| ==>
              && Walls(c, d, p90, levels)[i].Wall? && !Quotes(d.now, Walls(c, d, p90, levels)[i].price)
              && Quotes(levels, Walls(c, d, p90, levels)[i].price)
  {
    if levels != [] {
      hide WallAt;
      var n := |levels| - 1;
      var front, level := levels[..n], levels[n];
      WallsOrder(c, d, p90, front);
      var walls := Walls(c, d, p90, front);
      WallOne(c, d, p90, level);
      forall i | 0 <= i < |walls| ensures walls[i].price != level.0 && Quotes(levels, walls[i].price) {
        var k :| 0 <= k < |front| && front[k].0 == walls[i].price;
        assert levels[k].0 == walls[i].price;
      }
      assert levels[n].0 == level.0;
    }
  }

  lemma NewOrder(c: Config, d: Diff, due: seq<Event>, walls: seq<Event>)
    requires EventOrder(due) && EventOrder(walls)
    requires forall i :: 0 <= i < |due| ==> !due[i].Wall? && Quotes(d.now, due[i].price)
    requires forall i :: 0 <= i < |walls| ==> walls[i].Wall? && !Quotes(d.now, walls[i].price)
    ensures EventOrder(due + walls)
  {
    hide Quotes;
  }

  lemma DiffOrder(c: Config, e: Engine, side: Side, ts: int, book: Book, sizes: seq<real>)
    requires At(e, side).prev.Some? && DistinctBook(At(e, side).prev.value.book)
    ensures var after := Diffed(c, e, side, ts, book, sizes).events;
            |e.events| <= |after| && EventOrder(after[|e.events|..])
  {
    var due, walls := DiffedIs(c, e, side, ts, book, sizes);
    hide *;
    var d := DiffOf(e, side, ts, book);
    PrevIs(e, side, ts, book);
    DueAllOrder(c, d, At(e, side).pending);
    AllWallsOrder(c, d, P90(sizes));
    NewOrder(c, d, due, walls);
    OnlyNew(e.events, due, walls);
  }

  lemma PrevIs(e: Engine, side: Side, ts: int, book: Book)
    requires At(e, side).prev.Some?
    ensures DiffOf(e, side, ts, book).was == At(e, side).prev.value.book
  {
  }

  lemma OnlyNew(before: seq<Event>, due: seq<Event>, walls: seq<Event>)
    ensures (before + due + walls)[|before|..] == due + walls
  {
  }

  lemma DueAllOrder(c: Config, d: Diff, pending: seq<Pending>)
    requires DistinctBook(d.was)
    ensures var due := DueAll(c, d, pending, Common(d.was, d.now));
            EventOrder(due) && forall i :: 0 <= i < |due| ==> !due[i].Wall? && Quotes(d.now, due[i].price)
  {
    hide DueAll, Common, DistinctBook, Quotes, EventOrder, RealsIncrease;
    var due := DueAll(c, d, pending, Common(d.was, d.now));
    CommonIncreases(d.was, d.now);
    CommonQuoted(d.was, d.now);
    DueOrder(c, d, pending, Common(d.was, d.now));
    forall i | 0 <= i < |due| ensures Quotes(d.now, due[i].price) {
      CommonMember(d.was, d.now, due[i].price);
    }
  }

  lemma AllWallsOrder(c: Config, d: Diff, p90: Option<real>)
    requires DistinctBook(d.was)
    ensures var walls := if p90.Some? then Walls(c, d, p90.value, d.was) else [];
            EventOrder(walls) && forall i :: 0 <= i < |walls| ==> walls[i].Wall? && !Quotes(d.now, walls[i].price)
  {
    hide Walls, DistinctBook, Quotes, EventOrder;
    NothingInOrder();
    if p90.Some? {
      WallsOrder(c, d, p90.value, d.was);
    }
  }

  lemma NothingInOrder()
    ensures EventOrder([])
  {
  }

  // ---------------------------------------------------------------- the events of a run

  /** What a snapshot adds to the events of a run, said of the run's snapshots and earlier events alone. */
  ghost predicate Reports(c: Config, d: Diff, p90: Option<real>, snaps: seq<Snap>, before: seq<Event>, after: seq<Event>) {
    && before <= after && EventOrder(after[|before|..])
    && forall e :: e in after[|before|..] <==> EventOk(c, d, p90, e) && AnswersOldest(c, snaps, Fed(before, d.side), e)
  }

  /** On every run a snapshot that is neither its side's first nor trips the gap guard adds exactly: the cancels
      and the walls its diff calls for, and at each price near the best whose quantity rose one refill, of the
      oldest removal there that is unanswered, fewer than k_refill snapshots back and not cut off by a reset,
      if there is one. */
  lemma EventsOfRun(c: Config, ops: seq<Op>, side: Side, ts: int, book: Book)
    requires WellFormed(ops)
    ensures var e, snaps := Run(c, ops), SideSnaps(ops, side);
            var r := Step(c, e, SnapOp(side, ts, book));
            if snaps == [] || ts - snaps[|snaps| - 1].ts > c.gapGuard then r.events == e.events
            else
              var was := snaps[|snaps| - 1];
              Reports(c, Diff(side, was.ts, ts, was.book, book, e.trades, |snaps| + 1), P90(Remembered(c, e.sizes, book)),
                      snaps + [Snap(ts, book)], e.events, r.events)
  {
    hide *;
    var e, snaps := Run(c, ops), SideSnaps(ops, side);
    FullOfRun(c, ops, side);
    SnapsDistinct(ops, side);
    ReportsStep(c, e, side, ts, book, snaps);
  }

  lemma ReportsStep(c: Config, e: Engine, side: Side, ts: int, book: Book, snaps: seq<Snap>)
    requires SideFull(c, side, At(e, side), e.events, snaps)
    requires forall i :: 0 <= i < |snaps| ==> DistinctBook(snaps[i].book)
    ensures var r := Step(c, e, SnapOp(side, ts, book));
            if snaps == [] || ts - snaps[|snaps| - 1].ts > c.gapGuard then r.events == e.events
            else
              var was := snaps[|snaps| - 1];
              Reports(c, Diff(side, was.ts, ts, was.book, book, e.trades, |snaps| + 1), P90(Remembered(c, e.sizes, book)),
                      snaps + [Snap(ts, book)], e.events, r.events)
  {
    hide SideFull, Diffed, Reports, DistinctBook, P90, Remembered, After, Aged;
    FullMeans(c, side, At(e, side), e.events, snaps);
    if snaps != [] && ts - snaps[|snaps| - 1].ts <= c.gapGuard {
      ReportsDiff(c, e, side, ts, book, Remembered(c, e.sizes, book), snaps);
    }
  }

  lemma ReportsDiff(c: Config, e: Engine, side: Side, ts: int, book: Book, sizes: seq<real>, snaps: seq<Snap>)
    requires SideFull(c, side, At(e, side), e.events, snaps) && snaps != [] && At(e, side).prev.Some?
    requires At(e, side).prev.value == snaps[|snaps| - 1] && DistinctBook(snaps[|snaps| - 1].book)
    requires ts - snaps[|snaps| - 1].ts <= c.gapGuard
    ensures Reports(c, DiffOf(e, side, ts, book), P90(sizes), snaps + [Snap(ts, book)], e.events, Diffed(c, e, side, ts, book, sizes).events)
  {
    hide SideFull, Diffed, DistinctBook, P90, EventOk, FromQueue, AtPrice, AnswersOldest, EventOrder, Fed;
    DiffAppends(c, e, side, ts, book, sizes);
    DiffOrder(c, e, side, ts, book, sizes);
    forall ev: Event ensures FromQueue(AtPrice(At(e, side).pending, ev.price), ev) <==>
                      AnswersOldest(c, snaps + [Snap(ts, book)], Fed(e.events, side), ev) {
      HeadIsOldest(c, side, At(e, side), e.events, snaps, Snap(ts, book), ev);
    }
  }

  lemma LeastAwaits(c: Config, snaps: seq<Snap>, fed: Bag, m: nat, price: real) returns (k: nat)
    requires Awaits(c, snaps, fed, m, price)
    ensures k <= m && Oldest(c, snaps, fed, k, price)
  {
    hide Awaits;
    k := m;
    while !Oldest(c, snaps, fed, k, price)
      invariant k <= m && Awaits(c, snaps, fed, k, price)
      decreases k
    {
      var j: nat :| j < k && Awaits(c, snaps, fed, j, price);
      k := j;
    }
  }

  /** In particular no refill that is due is missed: a price quoted before and now, near the best, whose quantity
      rose and where some removal can still be answered, yields exactly one event, the refill of the oldest. */
  lemma RefillIsDue(c: Config, d: Diff, p90: Option<real>, snaps: seq<Snap>, before: seq<Event>, after: seq<Event>, price: real, m: nat)
    returns (k: nat)
    requires Reports(c, d, p90, snaps, before, after) && InBoth(d.was, d.now, price) && NearBest(c, d, price)
    requires Qty(d.was, price) < Qty(d.now, price) && Awaits(c, snaps, Fed(before, d.side), m, price)
    ensures k <= m && Oldest(c, snaps, Fed(before, d.side), k, price) && 2 <= k <= |snaps|
    ensures forall e :: e in after[|before|..] && e.price == price <==>
              e == Refill(d.t1, d.side, price, RemovedAt(snaps, k, price), Qty(d.now, price) - Qty(d.was, price), k, d.count)
  {
    hide InBoth, NearBest, Qty, Fed, Traded, NoReset, P90;
    k := LeastAwaits(c, snaps, Fed(before, d.side), m, price);
    var due := Refill(d.t1, d.side, price, RemovedAt(snaps, k, price), Qty(d.now, price) - Qty(d.was, price), k, d.count);
    var more := after[|before|..];
    assert due in more;
    forall e | e in more && e.price == price ensures e == due {
      OneAPrice(more, e, due);
    }
  }

  lemma OneAPrice(more: seq<Event>, e: Event, f: Event)
    requires EventOrder(more) && e in more && f in more && e.price == f.price
    ensures e == f
  {
    var i, j :| 0 <= i < |more| && 0 <= j < |more| && more[i] == e && more[j] == f;
  }

  // ---------------------------------------------------------------- what the measures mean

  /** The best price of a side is quoted, and no other is better. */
  lemma {:induction false} SpanMeans(b: Book)
    requires b != []
    ensures Quotes(b, Highest(b)) && Quotes(b, Lowest(b))
    ensures forall i :: 0 <= i < |b| ==> Lowest(b) <= b[i].0 <= Highest(b)
  {
    if |b| > 1 {
      var t := b[1..];
      SpanMeans(t);
      var i, j :| 0 <= i < |t| && 0 <= j < |t| && t[i].0 == Highest(t) && t[j].0 == Lowest(t);
      assert b[i + 1].0 == Highest(t) && b[j + 1].0 == Lowest(t);
      assert forall k :: 0 < k < |b| ==> b[k] == t[k - 1];
    }
    assert b[0].0 == b[0].0;
  }

  /** Near the best: within `near` of a quoted price that no other beats. */
  lemma NearBestMeans(c: Config, d: Diff, price: real)
    ensures NearBest(c, d, price) <==>
            exists i :: 0 <= i < |d.now| && price - c.near <= d.now[i].0 <= price + c.near
                        && forall j :: 0 <= j < |d.now| ==> if d.side == Bid then d.now[j].0 <= d.now[i].0 else d.now[i].0 <= d.now[j].0
  {
    if d.now != [] {
      SpanMeans(d.now);
    }
  }

  function Count(s: seq<real>, p: real -> bool): nat {
    if s == [] then 0 else Count(s[..|s| - 1], p) + if p(s[|s| - 1]) then 1 else 0
  }

  function Flag(p: real -> bool): real -> int {
    (x: real) => if p(x) then 1 else 0
  }

  lemma {:induction false} CountIsFold(s: seq<real>, p: real -> bool)
    ensures Count(s, p) == Fold(s, Flag(p), Add, 0)
  {
    if s != [] {
      CountIsFold(s[..|s| - 1], p);
    }
  }

  lemma CountSort(s: seq<real>, p: real -> bool)
    ensures Count(Sort(s, AtMost), p) == Count(s, p)
  {
    hide Count, Fold, Sort;
    CountIsFold(s, p);
    CountIsFold(Sort(s, AtMost), p);
    AddCommutes();
    FoldPermuted(Sort(s, AtMost), s, Flag(p), Add, 0);
  }

  lemma {:induction false} CountAtMost(s: seq<real>, p: real -> bool, k: nat)
    requires k <= |s| && forall i :: k <= i < |s| ==> !p(s[i])
    ensures Count(s, p) <= k
  {
    if s != [] {
      CountAtMost(s[..|s| - 1], p, if k < |s| then k else k - 1);
    }
  }

  lemma {:induction false} CountAtLeast(s: seq<real>, p: real -> bool, k: nat)
    requires k <= |s| && forall i :: 0 <= i < k ==> p(s[i])
    ensures Count(s, p) >= k
  {
    if s != [] && k > 0 {
      CountAtLeast(s[..|s| - 1], p, if k < |s| then k else k - 1);
    }
  }

  function Below(v: real): real -> bool {
    (x: real) => x < v
  }

  function UpTo(v: real): real -> bool {
    (x: real) => x <= v
  }

  /** The 90th percentile of at least 50 sizes: one of them, with at most 9/10 of the others below it and more
      than that many up to it. */
  lemma P90Means(sizes: seq<real>)
    ensures P90(sizes).None? <==> |sizes| < 50
    ensures P90(sizes).Some? ==>
              var v, k := P90(sizes).value, 9 * (|sizes| - 1) / 10;
              v in sizes && Count(sizes, Below(v)) <= k < Count(sizes, UpTo(v))
  {
    if |sizes| >= 50 {
      hide Sort, Count;
      var s, k := Sort(sizes, AtMost), 9 * (|sizes| - 1) / 10;
      var v := s[k];
      SortMember(sizes, AtMost, v);
      SortSorted(sizes, AtMost);
      forall i, j | 0 <= i <= j < |s| ensures s[i] <= s[j] {
        assert i < j ==> AtMost(s[i], s[j]);
      }
      CountAtMost(s, Below(v), k);
      CountAtLeast(s, UpTo(v), k + 1);
      CountSort(sizes, Below(v));
      CountSort(sizes, UpTo(v));
    }
  }

  /** Every quantity of every snapshot, in order. */
  function AllSizes(ops: seq<Op>): seq<real> {
    if ops == [] then []
    else AllSizes(ops[..|ops| - 1]) + if ops[|ops| - 1].SnapOp? then Quantities(ops[|ops| - 1].book) else []
  }

  function LastOf(s: seq<real>, n: nat): seq<real> {
    if |s| > n then s[|s| - n..] else s
  }

  /** The sizes remembered are the last wall_lookback quantities of both sides' snapshots. */
  lemma {:induction false} SizesOfRun(c: Config, ops: seq<Op>)
    ensures Run(c, ops).sizes == LastOf(AllSizes(ops), c.wallLookback)
  {
    if ops != [] {
      var before, op := ops[..|ops| - 1], ops[|ops| - 1];
      SizesOfRun(c, before);
      hide Step, LastOf, Quantities;
      StepSizes(c, Run(c, before), op);
      LastOfMore(AllSizes(before), if op.SnapOp? then Quantities(op.book) else [], c.wallLookback);
      assert LastOf(AllSizes(before), c.wallLookback) + [] == LastOf(AllSizes(before), c.wallLookback);
      LastOfLast(AllSizes(before), c.wallLookback);
    }
  }

  lemma StepSizes(c: Config, e: Engine, op: Op)
    ensures Step(c, e, op).sizes == if op.SnapOp? then LastOf(e.sizes + Quantities(op.book), c.wallLookback) else e.sizes
  {
    hide Diffed, After, Aged;
  }

  lemma LastOfLast(s: seq<real>, n: nat)
    ensures LastOf(LastOf(s, n), n) == LastOf(s, n)
  {
  }

  lemma LastOfMore(s: seq<real>, t: seq<real>, n: nat)
    ensures LastOf(LastOf(s, n) + t, n) == LastOf(s + t, n)
  {
  }

  /** One trade counts in full if its price is the price and its time is after `t0` and not after `t1`; with
      TradedConcat this says what any trades come to. */
  lemma TradedSingle(t: Trade, price: real, t0: int, t1: int)
    ensures Traded([t], price, t0, t1) == if t.price == price && t0 < t.ts && t.ts <= t1 then t.size else 0.0
  {
    assert [t][..0] == [];
  }

  // ---------------------------------------------------------------- the engine object

  method TradedAt(trades: seq<Trade>, price: real, t0: int, t1: int) returns (total: real)
    ensures total == Traded(trades, price, t0, t1)
  {
    total := 0.0;
    for i := 0 to |trades|
      invariant total == Traded(trades[..i], price, t0, t1)
    {
      assert trades[..i + 1][..i] == trades[..i];
      if t0 < trades[i].ts <= t1 && trades[i].price == price {
        total := total + trades[i].size;
      }
    }
    assert trades[..|trades|] == trades;
  }

  method KeepAfter(trades: seq<Trade>, t: int) returns (kept: seq<Trade>)
    ensures kept == After(trades, t)
  {
    kept := [];
    for i := 0 to |trades|
      invariant kept == After(trades[..i], t)
    {
      assert trades[..i + 1][..i] == trades[..i];
      if trades[i].ts > t {
        kept := kept + [trades[i]];
      }
    }
    assert trades[..|trades|] == trades;
  }

  method AgePending(pending: seq<Pending>) returns (keep: seq<Pending>)
    ensures keep == Aged(pending)
  {
    keep := [];
    for i := 0 to |pending|
      invariant keep == Aged(pending[..i])
    {
      assert pending[..i + 1][..i] == pending[..i];
      var p := pending[i].(snapsLeft := pending[i].snapsLeft - 1);
      if p.snapsLeft > 0 {
        keep := keep + [p];
      }
    }
    assert pending[..|pending|] == pending;
  }

  method DiffPrices(c: Config, d: Diff, prices: seq<real>, pending0: seq<Pending>, events0: seq<Event>)
    returns (pending: seq<Pending>, events: seq<Event>)
    ensures Tally(pending, events) == DiffAll(c, d, prices, Tally(pending0, events0))
  {
    hide DiffAll, Qty, Traded, NearBest;
    pending, events := pending0, events0;
    NothingDiffed(c, d, Tally(pending0, events0));
    for i := 0 to |prices|
      invariant Tally(pending, events) == DiffAll(c, d, prices[..i], Tally(pending0, events0))
    {
      DiffNext(c, d, prices, i, Tally(pending0, events0));
      var price := prices[i];
      var change := Qty(d.was, price) - Qty(d.now, price);
      if change > 0.0 {
        var traded := TradedAt(d.trades, price, d.t0, d.t1);
        var cancel := Max(change - traded, 0.0);
        if cancel > 0.0 {
          events := events + [Cancel(d.t1, d.side, price, change, traded, cancel)];
        }
        pending := pending + [Pending(price, change, c.kRefill, d.count)];
      } else if change < 0.0 {
        var restored := -change;
        var match_ := FirstAt(pending, price);
        if match_.Some? && NearBest(c, d, price) {
          var p := pending[match_.value];
          events := events + [Refill(d.t1, d.side, price, p.removed, restored, p.born, d.count)];
          pending := pending[..match_.value] + pending[match_.value + 1..];
        }
      }
    }
    assert prices[..|prices|] == prices;
  }

  lemma NothingDiffed(c: Config, d: Diff, t: Tally)
    ensures DiffAll(c, d, [], t) == t
  {
  }

  lemma DiffNext(c: Config, d: Diff, prices: seq<real>, i: nat, t: Tally)
    requires i < |prices|
    ensures DiffAll(c, d, prices[..i + 1], t) == DiffAt(c, d, DiffAll(c, d, prices[..i], t), prices[i])
  {
    hide DiffAt;
    assert prices[..i + 1][..i] == prices[..i];
  }

  lemma WallNext(c: Config, d: Diff, p90: real, levels: Book, i: nat)
    requires i < |levels|
    ensures Walls(c, d, p90, levels[..i + 1]) == Walls(c, d, p90, levels[..i]) + WallAt(c, d, p90, levels[i])
  {
    hide WallAt;
    assert levels[..i + 1][..i] == levels[..i];
  }

  lemma NoWallsYet(c: Config, d: Diff, p90: real)
    ensures Walls(c, d, p90, []) == []
  {
  }

  method FindWalls(c: Config, d: Diff, p90: real) returns (walls: seq<Event>)
    ensures walls == Walls(c, d, p90, d.was)
  {
    hide Walls, Quotes, Traded, Lowest, Highest;
    walls := [];
    NoWallsYet(c, d, p90);
    for i := 0 to |d.was|
      invariant walls == Walls(c, d, p90, d.was[..i])
    {
      WallNext(c, d, p90, d.was, i);
      var price, q := d.was[i].0, d.was[i].1;
      if !Quotes(d.now, price) && d.now != [] && Lowest(d.now) < price < Highest(d.now) && q >= p90 {
        var traded := TradedAt(d.trades, price, d.t0, d.t1);
        if traded < c.wallFrac * q {
          walls := walls + [Wall(d.t1, d.side, price, q, traded, Max(q - traded, 0.0))];
        }
      }
    }
    assert d.was[..|d.was|] == d.was;
  }

  class DepthProxyEngine {
    const cfg: Config
    var bid: SideState
    var ask: SideState
    var trades: seq<Trade>
    var sizes: seq<real>
    var events: seq<Event>

    function View(): Engine
      reads this
    {
      Engine(bid, ask, trades, sizes, events)
    }

    constructor (cfg: Config)
      ensures View() == Fresh && this.cfg == cfg
    {
      this.cfg := cfg;
      bid, ask, trades, sizes, events := SideState(None, [], 0), SideState(None, [], 0), [], [], [];
    }

    method AddTrade(t: Trade)
      modifies this
      ensures View() == Step(cfg, old(View()), TradeOp(t))
    {
      trades := trades + [t];
    }

    method SetSide(side: Side, s: SideState)
      modifies `bid, `ask
      ensures View() == With(old(View()), side, s)
    {
      if side == Bid {
        bid := s;
      } else {
        ask := s;
      }
    }

    method AddSnapshot(side: Side, ts: int, book: Book)
      modifies this
      ensures View() == OnSnapshot(cfg, old(View()), side, ts, book)
    {
      hide DiffAll, Walls, Aged, After, Common, P90;
      var s := At(View(), side);
      var now := Some(Snap(ts, book));
      sizes := sizes + Quantities(book);
      if |sizes| > cfg.wallLookback {
        sizes := sizes[|sizes| - cfg.wallLookback..];
      }
      if s.prev.None? {
        SetSide(side, s.(prev := now, count := s.count + 1));
        return;
      }
      var t0 := s.prev.value.ts;
      if ts - t0 > cfg.gapGuard {
        trades := KeepAfter(trades, ts);
        SetSide(side, SideState(now, [], s.count + 1));
        return;
      }
      var d := Diff(side, t0, ts, s.prev.value.book, book, trades, s.count + 1);
      var pending, evs := DiffPrices(cfg, d, Common(d.was, d.now), s.pending, events);
      var p90 := P90(sizes);
      if p90.Some? {
        var walls := FindWalls(cfg, d, p90.value);
        evs := evs + walls;
      }
      events := evs;
      pending := AgePending(pending);
      trades := KeepAfter(trades, ts - 2 * cfg.gapGuard - 1);
      SetSide(side, SideState(now, pending, s.count + 1));
    }
  }
}

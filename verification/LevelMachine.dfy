/**
 * The reference-level state machine of the LAR study (orderflow_engine/research/lar_study.py).
 *
 * Both sides are written out, as the program does: what is below a support level is above a resistance
 * level.  That the two are mirror images is then a theorem about every step and every run.
 */
module LarStudy {
  import opened Seqs

  datatype Level =
    | FAR | APPROACHING | TOUCHED | SWEPT | ABSORPTION_CANDIDATE | FLOW_FLIPPED | RECLAIMED | ARMED
    | TRIGGERED | FAILED | EXPIRED

  datatype Config = Config(
    approachAtr: real, touchTicks: real, sweepMinTicks: real, sweepMaxAtr: real, elevatedVolMult: real,
    defenseRefillsMin: int, reclaimK: int, triggerTicks: real, tick: real,
    approachExpiry: int, sweepToAbsorption: int, absorptionToFlip: int, flipToReclaim: int,
    armedExpiry: int, totalExpiry: int)

  datatype Bar = Bar(
    ts: int, high: real, low: real, close: real, atr: Option<real>, vol: real, volMed20: real, delta: real,
    bookOfi: Option<real>, effUp: Option<real>, effDn: Option<real>, effP25: Option<real>,
    refillsBid: Option<int>, refillsAsk: Option<int>, hasDepth: bool)

  datatype Quality = Good | NoDepth | DeltaOnly

  datatype Transition = Transition(ts: int, from: Level, to: Level, quality: Quality)

  datatype Outcome = Outcome(ts: int, trigger: real, stop: real, isLong: bool, rUnit: real)

  datatype Machine = Machine(
    state: Level, log: seq<Transition>, barsInSeq: int, barsInState: int, sweepExtreme: Option<real>,
    reclaimRun: int, armedSwing: Option<real>, outcome: Option<Outcome>)

  const Fresh := Machine(FAR, [], 0, 0, None, 0, None, None)

  predicate Terminal(s: Level) {
    s == TRIGGERED || s == FAILED || s == EXPIRED
  }

  /** Past the sweep and not yet decided. */
  predicate Swept(s: Level) {
    s == SWEPT || s == ABSORPTION_CANDIDATE || s == FLOW_FLIPPED || s == RECLAIMED || s == ARMED
  }

  function Abs(x: real): real {
    if x < 0.0 then -x else x
  }

  function Times(x: real, y: real): real {
    x * y
  }

  function Min(x: real, y: real): real {
    if x <= y then x else y
  }

  function Max(x: real, y: real): real {
    if x >= y then x else y
  }

  function Move(m: Machine, ts: int, to: Level, q: Quality): Machine {
    m.(log := m.log + [Transition(ts, m.state, to, q)], state := to, barsInState := 0)
  }

  function DepthQuality(b: Bar): Quality {
    if b.hasDepth then Good else NoDepth
  }

  /** Python truth of an optional number. */
  predicate Truthy(x: Option<real>) {
    x.Some? && x.value != 0.0
  }

  // ---------------------------------------------------------------- one bar

  function Ticked(m: Machine): Machine {
    m.(barsInSeq := m.barsInSeq + (if m.state != FAR then 1 else 0), barsInState := m.barsInState + 1)
  }

  /** How far the bar went beyond the level. */
  function Pierced(support: bool, level: real, b: Bar): real {
    if support then level - b.low else b.high - level
  }

  /** The close is on the reclaiming side of the level. */
  predicate Inside(support: bool, level: real, b: Bar) {
    if support then b.close > level else b.close < level
  }

  /** The close is beyond the level. */
  predicate Lost(support: bool, level: real, b: Bar) {
    if support then b.close < level else b.close > level
  }

  /** Flow toward the reclaiming side. */
  predicate Toward(support: bool, x: real) {
    if support then x > 0.0 else x < 0.0
  }

  function FromFar(c: Config, level: real, m: Machine, b: Bar): Machine {
    if Truthy(b.atr) && Abs(b.close - level) <= Times(c.approachAtr, b.atr.value)
    then Move(m, b.ts, APPROACHING, DepthQuality(b)).(barsInSeq := 1)
    else m
  }

  function FromApproaching(c: Config, support: bool, level: real, m: Machine, b: Bar): Machine {
    if Abs(b.close - level) <= Times(c.touchTicks, c.tick) || Pierced(support, level, b) > 0.0
    then Move(m, b.ts, TOUCHED, DepthQuality(b))
    else if m.barsInState > c.approachExpiry then Move(m, b.ts, FAR, DepthQuality(b)).(barsInSeq := 0)
    else m
  }

  function FromTouched(c: Config, support: bool, level: real, m: Machine, b: Bar): Machine {
    var pierced := Pierced(support, level, b);
    if pierced >= Times(c.sweepMinTicks, c.tick) then
      if Truthy(b.atr) && pierced > Times(c.sweepMaxAtr, b.atr.value) then Move(m, b.ts, FAILED, DepthQuality(b))
      else Move(m.(sweepExtreme := Some(if support then b.low else b.high)), b.ts, SWEPT, DepthQuality(b))
    else if m.barsInState > c.approachExpiry then Move(m, b.ts, EXPIRED, DepthQuality(b))
    else m
  }

  predicate Elevated(c: Config, b: Bar) {
    b.vol >= Times(c.elevatedVolMult, Max(b.volMed20, 1.0))
  }

  predicate LowEfficiency(eff: Option<real>, p25: Option<real>) {
    p25.Some? && eff.Some? && eff.value <= p25.value
  }

  predicate DepthHold(c: Config, b: Bar, refills: Option<int>) {
    b.hasDepth && refills.GetOr(0) >= c.defenseRefillsMin
  }

  /** The furthest the sweep has gone. */
  function Extreme(support: bool, was: Option<real>, b: Bar): real {
    if support then Min(was.GetOr(b.low), b.low) else Max(was.GetOr(b.high), b.high)
  }

  function FromSwept(c: Config, support: bool, m0: Machine, b: Bar): Machine {
    var m := m0.(sweepExtreme := Some(Extreme(support, m0.sweepExtreme, b)));
    if LowEfficiency(if support then b.effDn else b.effUp, b.effP25)
       && (Elevated(c, b) || DepthHold(c, b, if support then b.refillsBid else b.refillsAsk))
    then Move(m, b.ts, ABSORPTION_CANDIDATE, DepthQuality(b))
    else if m.barsInState > c.sweepToAbsorption then Move(m, b.ts, FAILED, DepthQuality(b))
    else m
  }

  function FromAbsorption(c: Config, support: bool, m: Machine, b: Bar): Machine {
    var ofiFlip := b.bookOfi.Some? && Toward(support, b.bookOfi.value);
    if ofiFlip || Toward(support, b.delta) then
      Move(m, b.ts, FLOW_FLIPPED, if !ofiFlip && b.hasDepth then DeltaOnly else DepthQuality(b))
    else if m.barsInState > c.absorptionToFlip then Move(m, b.ts, FAILED, DepthQuality(b))
    else m
  }

  function FromFlowFlipped(c: Config, support: bool, level: real, m0: Machine, b: Bar): Machine {
    var m := m0.(reclaimRun := if Inside(support, level, b) then m0.reclaimRun + 1 else 0);
    if m.reclaimRun >= c.reclaimK then Move(m, b.ts, RECLAIMED, DepthQuality(b))
    else if m.barsInState > c.flipToReclaim then Move(m, b.ts, FAILED, DepthQuality(b))
    else m
  }

  function FromReclaimed(c: Config, support: bool, level: real, m: Machine, b: Bar): Machine {
    if (if support then b.low >= level else b.high <= level)
    then Move(m.(armedSwing := Some(if support then b.high else b.low)), b.ts, ARMED, DepthQuality(b))
    else if Lost(support, level, b) then Move(m, b.ts, FAILED, DepthQuality(b))
    else m
  }

  /** Beyond the armed swing by the trigger distance. */
  function TriggerPrice(c: Config, support: bool, swing: Option<real>, b: Bar): real {
    if support then swing.GetOr(b.high) + Times(c.triggerTicks, c.tick)
    else swing.GetOr(b.low) - Times(c.triggerTicks, c.tick)
  }

  function FromArmed(c: Config, support: bool, level: real, m: Machine, b: Bar): Machine {
    var trigger := TriggerPrice(c, support, m.armedSwing, b);
    var stop := m.sweepExtreme.GetOr(if support then b.low else b.high);
    if (if support then b.high >= trigger else b.low <= trigger) then
      Move(m.(outcome := Some(Outcome(b.ts, trigger, stop, support, Abs(trigger - stop)))), b.ts, TRIGGERED, DepthQuality(b))
    else if Lost(support, level, b) then Move(m, b.ts, FAILED, DepthQuality(b))
    else if m.barsInState > c.armedExpiry then Move(m, b.ts, EXPIRED, DepthQuality(b))
    else m
  }

  function Decide(c: Config, support: bool, level: real, m: Machine, b: Bar): Machine {
    match m.state
    case FAR => FromFar(c, level, m, b)
    case APPROACHING => FromApproaching(c, support, level, m, b)
    case TOUCHED => FromTouched(c, support, level, m, b)
    case SWEPT => FromSwept(c, support, m, b)
    case ABSORPTION_CANDIDATE => FromAbsorption(c, support, m, b)
    case FLOW_FLIPPED => FromFlowFlipped(c, support, level, m, b)
    case RECLAIMED => FromReclaimed(c, support, level, m, b)
    case ARMED => FromArmed(c, support, level, m, b)
    case _ => m
  }

  function Step(c: Config, support: bool, level: real, m0: Machine, b: Bar): Machine {
    if Terminal(m0.state) then m0
    else
      var m := Ticked(m0);
      if m.state != FAR && m.barsInSeq > c.totalExpiry then Move(m, b.ts, EXPIRED, DepthQuality(b))
      else Decide(c, support, level, m, b)
  }

  function Run(c: Config, support: bool, level: real, bars: seq<Bar>): Machine {
    if bars == [] then Fresh
    else Step(c, support, level, Run(c, support, level, bars[..|bars| - 1]), bars[|bars| - 1])
  }

  // ---------------------------------------------------------------- the mirror

  function Negate(x: Option<real>): Option<real> {
    if x.Some? then Some(-x.value) else None
  }

  /** Prices negated, highs and lows, up and down efficiency, bid and ask refills swapped. */
  function MirrorBar(b: Bar): Bar {
    b.(high := -b.low, low := -b.high, close := -b.close, delta := -b.delta, bookOfi := Negate(b.bookOfi),
       effUp := b.effDn, effDn := b.effUp, refillsBid := b.refillsAsk, refillsAsk := b.refillsBid)
  }

  function MirrorOutcome(o: Outcome): Outcome {
    o.(trigger := -o.trigger, stop := -o.stop, isLong := !o.isLong)
  }

  function MirrorMachine(m: Machine): Machine {
    m.(sweepExtreme := Negate(m.sweepExtreme), armedSwing := Negate(m.armedSwing),
       outcome := if m.outcome.Some? then Some(MirrorOutcome(m.outcome.value)) else None)
  }

  function MirrorBars(bars: seq<Bar>): (r: seq<Bar>)
    ensures |r| == |bars| && forall i :: 0 <= i < |bars| ==> r[i] == MirrorBar(bars[i])
  {
    Map(MirrorBar, bars)
  }

  lemma MirrorMove(m: Machine, ts: int, to: Level, q: Quality)
    ensures MirrorMachine(Move(m, ts, to, q)) == Move(MirrorMachine(m), ts, to, q)
  {
  }

  lemma MirrorTicked(m: Machine)
    ensures MirrorMachine(Ticked(m)) == Ticked(MirrorMachine(m))
    ensures MirrorMachine(m).state == m.state && MirrorMachine(m).barsInSeq == m.barsInSeq
  {
  }

  lemma MirrorMeasures(c: Config, support: bool, level: real, b: Bar)
    ensures MirrorBar(b).ts == b.ts && DepthQuality(MirrorBar(b)) == DepthQuality(b) && MirrorBar(b).atr == b.atr
    ensures Abs(MirrorBar(b).close - -level) == Abs(b.close - level)
    ensures Pierced(!support, -level, MirrorBar(b)) == Pierced(support, level, b)
    ensures Inside(!support, -level, MirrorBar(b)) == Inside(support, level, b)
    ensures Lost(!support, -level, MirrorBar(b)) == Lost(support, level, b)
    ensures Elevated(c, MirrorBar(b)) == Elevated(c, b)
  {
  }

  lemma MirrorTrigger(c: Config, support: bool, swing: Option<real>, stop: Option<real>, b: Bar)
    ensures TriggerPrice(c, !support, Negate(swing), MirrorBar(b)) == -TriggerPrice(c, support, swing, b)
    ensures Extreme(!support, Negate(stop), MirrorBar(b)) == -Extreme(support, stop, b)
  {
  }

  lemma AbsNegated(x: real, y: real)
    ensures Abs(-x - -y) == Abs(x - y)
  {
  }

  lemma MirrorFar(c: Config, level: real, m: Machine, b: Bar)
    ensures FromFar(c, -level, MirrorMachine(m), MirrorBar(b))
         == MirrorMachine(FromFar(c, level, m, b))
  {
    hide Times, Move, Abs;
    MirrorMeasures(c, true, level, b);
    MirrorMove(m, b.ts, APPROACHING, DepthQuality(b));
  }

  lemma MirrorApproaching(c: Config, support: bool, level: real, m: Machine, b: Bar)
    ensures FromApproaching(c, !support, -level, MirrorMachine(m), MirrorBar(b))
         == MirrorMachine(FromApproaching(c, support, level, m, b))
  {
    hide Times, Move, Abs, Pierced;
    MirrorMeasures(c, support, level, b);
    MirrorMove(m, b.ts, TOUCHED, DepthQuality(b));
    MirrorMove(m, b.ts, FAR, DepthQuality(b));
  }

  lemma MirrorTouched(c: Config, support: bool, level: real, m: Machine, b: Bar)
    ensures FromTouched(c, !support, -level, MirrorMachine(m), MirrorBar(b))
         == MirrorMachine(FromTouched(c, support, level, m, b))
  {
    hide Times, Move, Abs, Pierced;
    MirrorMeasures(c, support, level, b);
    MirrorMove(m, b.ts, FAILED, DepthQuality(b));
    MirrorMove(m, b.ts, EXPIRED, DepthQuality(b));
    MirrorMove(m.(sweepExtreme := Some(if support then b.low else b.high)), b.ts, SWEPT, DepthQuality(b));
  }

  lemma MirrorSwept(c: Config, support: bool, m: Machine, b: Bar)
    ensures FromSwept(c, !support, MirrorMachine(m), MirrorBar(b))
         == MirrorMachine(FromSwept(c, support, m, b))
  {
    hide Times, Move, Extreme, LowEfficiency, Elevated;
    MirrorMeasures(c, support, 0.0, b);
    MirrorTrigger(c, support, None, m.sweepExtreme, b);
    var t := m.(sweepExtreme := Some(Extreme(support, m.sweepExtreme, b)));
    MirrorMove(t, b.ts, ABSORPTION_CANDIDATE, DepthQuality(b));
    MirrorMove(t, b.ts, FAILED, DepthQuality(b));
  }

  lemma MirrorAbsorption(c: Config, support: bool, m: Machine, b: Bar)
    ensures FromAbsorption(c, !support, MirrorMachine(m), MirrorBar(b))
         == MirrorMachine(FromAbsorption(c, support, m, b))
  {
    hide Move;
    MirrorMeasures(c, support, 0.0, b);
    MirrorMove(m, b.ts, FLOW_FLIPPED, DeltaOnly);
    MirrorMove(m, b.ts, FLOW_FLIPPED, DepthQuality(b));
    MirrorMove(m, b.ts, FAILED, DepthQuality(b));
  }

  lemma MirrorFlowFlipped(c: Config, support: bool, level: real, m: Machine, b: Bar)
    ensures FromFlowFlipped(c, !support, -level, MirrorMachine(m), MirrorBar(b))
         == MirrorMachine(FromFlowFlipped(c, support, level, m, b))
  {
    hide Move, Inside;
    MirrorMeasures(c, support, level, b);
    var t := m.(reclaimRun := if Inside(support, level, b) then m.reclaimRun + 1 else 0);
    MirrorMove(t, b.ts, RECLAIMED, DepthQuality(b));
    MirrorMove(t, b.ts, FAILED, DepthQuality(b));
  }

  lemma MirrorReclaimed(c: Config, support: bool, level: real, m: Machine, b: Bar)
    ensures FromReclaimed(c, !support, -level, MirrorMachine(m), MirrorBar(b))
         == MirrorMachine(FromReclaimed(c, support, level, m, b))
  {
    hide Move, Lost;
    MirrorMeasures(c, support, level, b);
    MirrorMove(m.(armedSwing := Some(if support then b.high else b.low)), b.ts, ARMED, DepthQuality(b));
    MirrorMove(m, b.ts, FAILED, DepthQuality(b));
  }

  lemma MirrorOutcomes(ts: int, trigger: real, stop: real, support: bool)
    ensures Outcome(ts, -trigger, -stop, !support, Abs(-trigger - -stop))
         == MirrorOutcome(Outcome(ts, trigger, stop, support, Abs(trigger - stop)))
  {
    AbsNegated(trigger, stop);
  }

  lemma MirrorArmed(c: Config, support: bool, level: real, m: Machine, b: Bar)
    ensures FromArmed(c, !support, -level, MirrorMachine(m), MirrorBar(b))
         == MirrorMachine(FromArmed(c, support, level, m, b))
  {
    hide Times, Move, Lost, Abs, TriggerPrice;
    MirrorMeasures(c, support, level, b);
    MirrorTrigger(c, support, m.armedSwing, None, b);
    var trigger := TriggerPrice(c, support, m.armedSwing, b);
    var stop := m.sweepExtreme.GetOr(if support then b.low else b.high);
    MirrorOutcomes(b.ts, trigger, stop, support);
    MirrorMove(m.(outcome := Some(Outcome(b.ts, trigger, stop, support, Abs(trigger - stop)))), b.ts, TRIGGERED, DepthQuality(b));
    MirrorMove(m, b.ts, FAILED, DepthQuality(b));
    MirrorMove(m, b.ts, EXPIRED, DepthQuality(b));
  }

  /** One bar: the machine on the other side, given the mirrored state and bar, takes the mirrored step. */
  lemma MirrorStep(c: Config, support: bool, level: real, m: Machine, b: Bar)
    ensures Step(c, !support, -level, MirrorMachine(m), MirrorBar(b)) == MirrorMachine(Step(c, support, level, m, b))
  {
    hide FromFar, FromApproaching, FromTouched, FromSwept, FromAbsorption, FromFlowFlipped, FromReclaimed, FromArmed;
    hide MirrorBar, MirrorMachine, Move, Ticked, DepthQuality;
    var t := Ticked(m);
    MirrorTicked(m);
    MirrorTicked(t);
    MirrorMove(t, b.ts, EXPIRED, DepthQuality(b));
    MirrorMeasures(c, support, level, b);
    MirrorFar(c, level, t, b);
    MirrorApproaching(c, support, level, t, b);
    MirrorTouched(c, support, level, t, b);
    MirrorSwept(c, support, t, b);
    MirrorAbsorption(c, support, t, b);
    MirrorFlowFlipped(c, support, level, t, b);
    MirrorReclaimed(c, support, level, t, b);
    MirrorArmed(c, support, level, t, b);
  }

  /** On every bar stream the machine on the other side of the mirrored level is, bar for bar, the mirror
      image: the same states and the same log, with stop and trigger negated. */
  lemma {:induction false} MirrorTheorem(c: Config, support: bool, level: real, bars: seq<Bar>)
    ensures Run(c, !support, -level, MirrorBars(bars)) == MirrorMachine(Run(c, support, level, bars))
    ensures Run(c, !support, -level, MirrorBars(bars)).log == Run(c, support, level, bars).log
  {
    hide Step;
    if bars != [] {
      var n := |bars| - 1;
      MirrorTheorem(c, support, level, bars[..n]);
      assert MirrorBars(bars)[..n] == MirrorBars(bars[..n]);
      MirrorStep(c, support, level, Run(c, support, level, bars[..n]), bars[n]);
    }
  }

  // ---------------------------------------------------------------- the log

  /** How far along the chain FAR .. TRIGGERED a state is. */
  function Rank(s: Level): nat {
    match s
    case FAR => 0 case APPROACHING => 1 case TOUCHED => 2 case SWEPT => 3 case ABSORPTION_CANDIDATE => 4
    case FLOW_FLIPPED => 5 case RECLAIMED => 6 case ARMED => 7 case _ => 8
  }

  const ORDER: seq<Level> :=
    [FAR, APPROACHING, TOUCHED, SWEPT, ABSORPTION_CANDIDATE, FLOW_FLIPPED, RECLAIMED, ARMED, TRIGGERED]

  /** The first `k` of the eight transitions FAR -> .. -> TRIGGERED. */
  function Chain(k: nat): (r: seq<(Level, Level)>)
    requires k <= 8
    ensures |r| == k
  {
    seq(k, i requires 0 <= i < k => (ORDER[i], ORDER[i + 1]))
  }

  function RoundTrips(n: nat): seq<(Level, Level)> {
    if n == 0 then [] else RoundTrips(n - 1) + [(FAR, APPROACHING), (APPROACHING, FAR)]
  }

  function Pairs(log: seq<Transition>): (r: seq<(Level, Level)>)
    ensures |r| == |log|
  {
    seq(|log|, i requires 0 <= i < |log| => (log[i].from, log[i].to))
  }

  /** `n` FAR/APPROACHING round trips, then the chain as far as it got; a failed or expired machine
      then left the chain from some state short of TRIGGERED. */
  ghost predicate LogShape(m: Machine, n: nat, k: nat) {
    && k <= 8
    && if m.state == FAILED || m.state == EXPIRED
       then 1 <= k <= 7 && Pairs(m.log) == RoundTrips(n) + Chain(k) + [(ORDER[k], m.state)]
       else k == Rank(m.state) && Pairs(m.log) == RoundTrips(n) + Chain(k)
  }

  /** A step logs nothing, or one transition out of the current state. */
  ghost predicate Logs(m: Machine, t: Machine) {
    || (t.log == m.log && t.state == m.state)
    || (!Terminal(m.state) && Pairs(t.log) == Pairs(m.log) + [(m.state, t.state)] && m.log <= t.log
        && Allowed(m.state, t.state))
  }

  lemma MoveLogs(m: Machine, w: Machine, ts: int, to: Level, q: Quality)
    requires w.log == m.log && w.state == m.state && !Terminal(m.state) && Allowed(m.state, to)
    ensures Pairs(Move(w, ts, to, q).log) == Pairs(m.log) + [(m.state, to)] && m.log <= Move(w, ts, to, q).log
    ensures Move(w, ts, to, q).state == to
  {
  }

  lemma FarLogs(c: Config, support: bool, level: real, m: Machine, b: Bar)
    requires m.state == FAR
    ensures Logs(m, FromFar(c, level, m, b))
  {
    hide Times, Abs, Pierced, Extreme, TriggerPrice, LowEfficiency, Elevated, DepthHold, Toward, Inside, Lost, DepthQuality, Truthy, Pairs, Move;
    MoveLogs(m, m, b.ts, APPROACHING, DepthQuality(b));
  }

  lemma ApproachingLogs(c: Config, support: bool, level: real, m: Machine, b: Bar)
    requires m.state == APPROACHING
    ensures Logs(m, FromApproaching(c, support, level, m, b))
  {
    hide Times, Abs, Pierced, Extreme, TriggerPrice, LowEfficiency, Elevated, DepthHold, Toward, Inside, Lost, DepthQuality, Truthy, Pairs, Move;
    MoveLogs(m, m, b.ts, TOUCHED, DepthQuality(b));
    MoveLogs(m, m, b.ts, FAR, DepthQuality(b));
  }

  lemma TouchedLogs(c: Config, support: bool, level: real, m: Machine, b: Bar)
    requires m.state == TOUCHED
    ensures Logs(m, FromTouched(c, support, level, m, b))
  {
    hide Times, Abs, Pierced, Extreme, TriggerPrice, LowEfficiency, Elevated, DepthHold, Toward, Inside, Lost, DepthQuality, Truthy, Pairs, Move;
    MoveLogs(m, m, b.ts, FAILED, DepthQuality(b));
    MoveLogs(m, m, b.ts, EXPIRED, DepthQuality(b));
    MoveLogs(m, m.(sweepExtreme := Some(if support then b.low else b.high)), b.ts, SWEPT, DepthQuality(b));
  }

  lemma SweptLogs(c: Config, support: bool, level: real, m: Machine, b: Bar)
    requires m.state == SWEPT
    ensures Logs(m, FromSwept(c, support, m, b))
  {
    hide Times, Abs, Pierced, Extreme, TriggerPrice, LowEfficiency, Elevated, DepthHold, Toward, Inside, Lost, DepthQuality, Truthy, Pairs, Move;
    MoveLogs(m, m.(sweepExtreme := Some(Extreme(support, m.sweepExtreme, b))), b.ts, ABSORPTION_CANDIDATE, DepthQuality(b));
    MoveLogs(m, m.(sweepExtreme := Some(Extreme(support, m.sweepExtreme, b))), b.ts, FAILED, DepthQuality(b));
  }

  lemma AbsorptionLogs(c: Config, support: bool, level: real, m: Machine, b: Bar)
    requires m.state == ABSORPTION_CANDIDATE
    ensures Logs(m, FromAbsorption(c, support, m, b))
  {
    hide Times, Abs, Pierced, Extreme, TriggerPrice, LowEfficiency, Elevated, DepthHold, Toward, Inside, Lost, DepthQuality, Truthy, Pairs, Move;
    MoveLogs(m, m, b.ts, FLOW_FLIPPED, DeltaOnly);
    MoveLogs(m, m, b.ts, FLOW_FLIPPED, DepthQuality(b));
    MoveLogs(m, m, b.ts, FAILED, DepthQuality(b));
  }

  lemma FlowFlippedLogs(c: Config, support: bool, level: real, m: Machine, b: Bar)
    requires m.state == FLOW_FLIPPED
    ensures Logs(m, FromFlowFlipped(c, support, level, m, b))
  {
    hide Times, Abs, Pierced, Extreme, TriggerPrice, LowEfficiency, Elevated, DepthHold, Toward, Inside, Lost, DepthQuality, Truthy, Pairs, Move;
    MoveLogs(m, m.(reclaimRun := if Inside(support, level, b) then m.reclaimRun + 1 else 0), b.ts, RECLAIMED, DepthQuality(b));
    MoveLogs(m, m.(reclaimRun := if Inside(support, level, b) then m.reclaimRun + 1 else 0), b.ts, FAILED, DepthQuality(b));
  }

  lemma ReclaimedLogs(c: Config, support: bool, level: real, m: Machine, b: Bar)
    requires m.state == RECLAIMED
    ensures Logs(m, FromReclaimed(c, support, level, m, b))
  {
    hide Times, Abs, Pierced, Extreme, TriggerPrice, LowEfficiency, Elevated, DepthHold, Toward, Inside, Lost, DepthQuality, Truthy, Pairs, Move;
    MoveLogs(m, m.(armedSwing := Some(if support then b.high else b.low)), b.ts, ARMED, DepthQuality(b));
    MoveLogs(m, m, b.ts, FAILED, DepthQuality(b));
  }

  lemma ArmedLogs(c: Config, support: bool, level: real, m: Machine, b: Bar)
    requires m.state == ARMED
    ensures Logs(m, FromArmed(c, support, level, m, b))
  {
    hide Times, Abs, Pierced, Extreme, TriggerPrice, LowEfficiency, Elevated, DepthHold, Toward, Inside, Lost, DepthQuality, Truthy, Pairs, Move;
    var trigger := TriggerPrice(c, support, m.armedSwing, b);
    var stop := m.sweepExtreme.GetOr(if support then b.low else b.high);
    MoveLogs(m, m.(outcome := Some(Outcome(b.ts, trigger, stop, support, Abs(trigger - stop)))), b.ts, TRIGGERED, DepthQuality(b));
    MoveLogs(m, m, b.ts, FAILED, DepthQuality(b));
    MoveLogs(m, m, b.ts, EXPIRED, DepthQuality(b));
  }

  lemma OneTransition(c: Config, support: bool, level: real, m: Machine, b: Bar)
    ensures Logs(m, Step(c, support, level, m, b))
  {
    hide FromFar, FromApproaching, FromTouched, FromSwept, FromAbsorption, FromFlowFlipped, FromReclaimed, FromArmed, Pairs, Move;
    var w := Ticked(m);
    if Terminal(m.state) {
    } else if m.state != FAR && w.barsInSeq > c.totalExpiry {
      MoveLogs(m, w, b.ts, EXPIRED, DepthQuality(b));
    } else {
      match m.state {
        case FAR => FarLogs(c, support, level, w, b);
        case APPROACHING => ApproachingLogs(c, support, level, w, b);
        case TOUCHED => TouchedLogs(c, support, level, w, b);
        case SWEPT => SweptLogs(c, support, level, w, b);
        case ABSORPTION_CANDIDATE => AbsorptionLogs(c, support, level, w, b);
        case FLOW_FLIPPED => FlowFlippedLogs(c, support, level, w, b);
        case RECLAIMED => ReclaimedLogs(c, support, level, w, b);
        case ARMED => ArmedLogs(c, support, level, w, b);
      }
    }
  }

  /** One step along the chain, back from APPROACHING to FAR, or out to FAILED or EXPIRED. */
  predicate Allowed(s: Level, t: Level) {
    || (Rank(t) == Rank(s) + 1 && t != FAILED && t != EXPIRED)
    || (s == APPROACHING && t == FAR)
    || (s != FAR && (t == FAILED || t == EXPIRED))
  }

  lemma LogStep(c: Config, support: bool, level: real, m: Machine, b: Bar, n: nat, k: nat)
    requires LogShape(m, n, k)
    ensures exists n', k' :: LogShape(Step(c, support, level, m, b), n', k')
  {
    hide Step;
    var t := Step(c, support, level, m, b);
    OneTransition(c, support, level, m, b);
    if t.state == m.state && t.log == m.log {
      assert LogShape(t, n, k);
    } else if t.state == FAILED || t.state == EXPIRED {
      assert ORDER[k] == m.state;
      assert LogShape(t, n, k);
    } else if t.state == FAR {
      assert Chain(1) + [(APPROACHING, FAR)] == [(FAR, APPROACHING), (APPROACHING, FAR)];
      assert Chain(0) == [];
      assert RoundTrips(n + 1) == RoundTrips(n) + (Chain(1) + [(APPROACHING, FAR)]);
      assert LogShape(t, n + 1, 0);
    } else {
      assert ORDER[k] == m.state && ORDER[k + 1] == t.state;
      assert Chain(k + 1) == Chain(k) + [(m.state, t.state)];
      assert LogShape(t, n, k + 1);
    }
  }

  /** On every run the log is round trips and then a straight walk down the chain. */
  lemma {:induction false} LogOfRun(c: Config, support: bool, level: real, bars: seq<Bar>)
    ensures exists n, k :: LogShape(Run(c, support, level, bars), n, k)
  {
    if bars == [] {
      assert LogShape(Run(c, support, level, bars), 0, 0);
    } else {
      var before := bars[..|bars| - 1];
      LogOfRun(c, support, level, before);
      hide Step, LogShape;
      var m := Run(c, support, level, before);
      var n, k :| LogShape(m, n, k);
      LogStep(c, support, level, m, bars[|bars| - 1], n, k);
      assert Run(c, support, level, bars) == Step(c, support, level, m, bars[|bars| - 1]);
    }
  }

  /** A triggered run went through all eight transitions in order after its round trips. */
  lemma TriggeredLog(c: Config, support: bool, level: real, bars: seq<Bar>)
    requires Run(c, support, level, bars).state == TRIGGERED
    ensures exists n :: Pairs(Run(c, support, level, bars).log) == RoundTrips(n) + Chain(8)
  {
    LogOfRun(c, support, level, bars);
  }

  // ---------------------------------------------------------------- timers

  /** Inside a sequence `barsInSeq` counts the bars since the machine last was FAR. */
  ghost predicate SeqCount(c: Config, support: bool, level: real, bars: seq<Bar>) {
    var m := Run(c, support, level, bars);
    && (m.state == FAR ==> m.barsInSeq == 0)
    && (m.state != FAR && !Terminal(m.state) ==>
          && 1 <= m.barsInSeq <= |bars| && (m.barsInSeq == 1 || m.barsInSeq <= c.totalExpiry)
          && Run(c, support, level, bars[..|bars| - m.barsInSeq]).state == FAR
          && forall j :: |bars| - m.barsInSeq < j <= |bars| ==> Run(c, support, level, bars[..j]).state != FAR)
  }

  lemma BarsInSeqStep(c: Config, support: bool, level: real, m: Machine, b: Bar)
    ensures var t := Step(c, support, level, m, b);
            && (m.state == FAR && m.barsInSeq == 0 && t.state == FAR ==> t.barsInSeq == 0)
            && (m.state == FAR && t.state != FAR ==> t.state == APPROACHING && t.barsInSeq == 1)
            && (m.state != FAR && t.state == FAR ==> t.barsInSeq == 0)
            && (m.state != FAR && t.state != FAR && !Terminal(m.state) && t.state != EXPIRED ==>
                  t.barsInSeq == m.barsInSeq + 1 <= c.totalExpiry)
            && (Terminal(m.state) ==> t.state == m.state)
  {
  }

  lemma {:induction false} SeqCountOfRun(c: Config, support: bool, level: real, bars: seq<Bar>)
    ensures SeqCount(c, support, level, bars)
  {
    hide Step;
    if bars != [] {
      var n := |bars| - 1;
      var before := bars[..n];
      SeqCountOfRun(c, support, level, before);
      BarsInSeqStep(c, support, level, Run(c, support, level, before), bars[n]);
      assert forall j :: 0 <= j <= n ==> before[..j] == bars[..j];
      assert bars[..n + 1] == bars;
    }
  }

  /** From the approaching bar to the triggering bar, both included, there are at most
      total_expiry_bars bars, and the machine is in sequence on all of them. */
  lemma ApproachToTrigger(c: Config, support: bool, level: real, bars: seq<Bar>)
    requires bars != []
    requires Run(c, support, level, bars).state == TRIGGERED
    requires Run(c, support, level, bars[..|bars| - 1]).state != TRIGGERED
    ensures exists i :: 0 <= i < |bars| && |bars| - i <= c.totalExpiry
                        && Run(c, support, level, bars[..i]).state == FAR
                        && forall j :: i < j <= |bars| ==> Run(c, support, level, bars[..j]).state != FAR
  {
    hide Step;
    var n := |bars| - 1;
    var before := bars[..n];
    var m := Run(c, support, level, before);
    SeqCountOfRun(c, support, level, before);
    BarsInSeqStep(c, support, level, m, bars[n]);
    var i := n - m.barsInSeq;
    assert before[..i] == bars[..i];
    forall j | i < j <= |bars| ensures Run(c, support, level, bars[..j]).state != FAR {
      assert if j <= n then before[..j] == bars[..j] else bars[..j] == bars;
    }
  }

  // ---------------------------------------------------------------- terminal states, causality

  lemma StepIsCausal(c: Config, support: bool, level: real, m: Machine, b: Bar)
    ensures m.log <= Step(c, support, level, m, b).log
    ensures Terminal(m.state) ==> Step(c, support, level, m, b) == m
  {
    OneTransition(c, support, level, m, b);
  }

  /** A terminal machine never changes again, and no later bar rewrites what was logged. */
  lemma {:induction false} LogIsCausal(c: Config, support: bool, level: real, bars: seq<Bar>, i: nat)
    requires i <= |bars|
    ensures Run(c, support, level, bars[..i]).log <= Run(c, support, level, bars).log
    ensures Terminal(Run(c, support, level, bars[..i]).state) ==>
              Run(c, support, level, bars) == Run(c, support, level, bars[..i])
  {
    if i == |bars| {
      assert bars[..i] == bars;
    } else {
      var n := |bars| - 1;
      LogIsCausal(c, support, level, bars[..n], i);
      assert bars[..n][..i] == bars[..i];
      hide Step;
      StepIsCausal(c, support, level, Run(c, support, level, bars[..n]), bars[n]);
    }
  }

  // ---------------------------------------------------------------- stop and trigger

  ghost predicate Sane(bars: seq<Bar>) {
    forall i :: 0 <= i < |bars| ==> bars[i].low <= bars[i].high
  }

  /** At a support level the sweep extreme stays below the level by the sweep distance, the armed swing
      above it, and the outcome records both. */
  ghost predicate LongGeometry(c: Config, level: real, m: Machine) {
    && (Swept(m.state) ==>
          m.sweepExtreme.Some? && m.sweepExtreme.value <= level - c.sweepMinTicks * c.tick)
    && (m.state == ARMED ==> m.armedSwing.Some? && m.armedSwing.value >= level)
    && (m.outcome.Some? <==> m.state == TRIGGERED)
    && (m.state == TRIGGERED ==>
          var o := m.outcome.value;
          && o.isLong && o.rUnit == Abs(o.trigger - o.stop)
          && o.stop <= level - c.sweepMinTicks * c.tick
          && o.trigger >= level + c.triggerTicks * c.tick)
  }

  lemma LongGeometryStep(c: Config, level: real, m: Machine, b: Bar)
    requires LongGeometry(c, level, m) && b.low <= b.high
    ensures LongGeometry(c, level, Step(c, true, level, m, b))
  {
    hide Abs, Elevated, LowEfficiency, DepthHold, Toward, Inside, DepthQuality, Truthy;
  }

  lemma {:induction false} LongGeometryOfRun(c: Config, level: real, bars: seq<Bar>)
    requires Sane(bars)
    ensures LongGeometry(c, level, Run(c, true, level, bars))
  {
    if bars != [] {
      var n := |bars| - 1;
      LongGeometryOfRun(c, level, bars[..n]);
      LongGeometryStep(c, level, Run(c, true, level, bars[..n]), bars[n]);
    }
  }

  /** Stop and trigger lie on opposite sides of the level, at least sweep_min_ticks + trigger_ticks
      ticks apart, and the risk unit is their distance. */
  lemma StopAndTrigger(c: Config, support: bool, level: real, bars: seq<Bar>)
    requires Sane(bars) && Run(c, support, level, bars).state == TRIGGERED
    ensures Run(c, support, level, bars).outcome.Some?
    ensures var o := Run(c, support, level, bars).outcome.value;
            && o.isLong == support && o.rUnit == Abs(o.trigger - o.stop)
            && (if support then o.stop <= level - c.sweepMinTicks * c.tick && level + c.triggerTicks * c.tick <= o.trigger
                else o.trigger <= level - c.triggerTicks * c.tick && level + c.sweepMinTicks * c.tick <= o.stop)
            && o.rUnit >= (c.sweepMinTicks + c.triggerTicks) * c.tick
  {
    hide Run;
    if support {
      LongGeometryOfRun(c, level, bars);
    } else {
      LongGeometryOfRun(c, -level, MirrorBars(bars));
      MirrorTheorem(c, support, level, bars);
    }
    assert (c.sweepMinTicks + c.triggerTicks) * c.tick == c.sweepMinTicks * c.tick + c.triggerTicks * c.tick;
  }

  // ---------------------------------------------------------------- what each transition takes, on the bars

  /** Close within approach_atr true ranges of the level. */
  predicate Nears(c: Config, level: real, b: Bar) {
    b.atr.Some? && b.atr.value != 0.0
    && level - c.approachAtr * b.atr.value <= b.close <= level + c.approachAtr * b.atr.value
  }

  /** Close within touch_ticks of the level, or any price beyond it. */
  predicate Touches(c: Config, support: bool, level: real, b: Bar) {
    || level - c.touchTicks * c.tick <= b.close <= level + c.touchTicks * c.tick
    || (if support then b.low < level else level < b.high)
  }

  predicate Breaks(c: Config, support: bool, level: real, b: Bar) {
    if support then b.low <= level - c.sweepMinTicks * c.tick else level + c.sweepMinTicks * c.tick <= b.high
  }

  predicate Overshoots(c: Config, support: bool, level: real, b: Bar) {
    b.atr.Some? && b.atr.value != 0.0
    && if support then b.low < level - c.sweepMaxAtr * b.atr.value else level + c.sweepMaxAtr * b.atr.value < b.high
  }

  /** Low efficiency of the breaking side, with volume of elevated_vol_mult medians (of at least one) or with
      enough refills of the defending side. */
  predicate Absorbs(c: Config, support: bool, b: Bar) {
    && b.effP25.Some?
    && (if support then b.effDn.Some? && b.effDn.value <= b.effP25.value else b.effUp.Some? && b.effUp.value <= b.effP25.value)
    && (|| (c.elevatedVolMult * b.volMed20 <= b.vol && 1.0 <= b.volMed20)
        || (c.elevatedVolMult <= b.vol && b.volMed20 < 1.0)
        || (b.hasDepth && c.defenseRefillsMin <= if support then b.refillsBid.GetOr(0) else b.refillsAsk.GetOr(0)))
  }

  predicate BookFlips(support: bool, b: Bar) {
    b.bookOfi.Some? && if support then 0.0 < b.bookOfi.value else b.bookOfi.value < 0.0
  }

  predicate DeltaFlips(support: bool, b: Bar) {
    if support then 0.0 < b.delta else b.delta < 0.0
  }

  predicate ClosesInside(support: bool, level: real, b: Bar) {
    if support then level < b.close else b.close < level
  }

  predicate ClosesBeyond(support: bool, level: real, b: Bar) {
    if support then b.close < level else level < b.close
  }

  predicate Retests(support: bool, level: real, b: Bar) {
    if support then level <= b.low else b.high <= level
  }

  /** The bar trades trigger_ticks beyond the armed swing. */
  predicate Hits(c: Config, support: bool, swing: real, b: Bar) {
    if support then swing + c.triggerTicks * c.tick <= b.high else b.low <= swing - c.triggerTicks * c.tick
  }

  /** Where bar `b` takes a machine in state `was`: it has then met `stay` bars in that state and `inSeq` in
      the sequence, the last `run` of them closed inside, and `swing` is the armed one. */
  ghost predicate Rule(c: Config, support: bool, level: real, was: Level, now: Level, b: Bar,
                       stay: int, inSeq: int, run: int, swing: Option<real>) {
    var late := inSeq > c.totalExpiry;
    match was
    case FAR =>
      now == if Nears(c, level, b) then APPROACHING else FAR
    case APPROACHING =>
      && (now == EXPIRED <==> late)
      && (now == TOUCHED <==> !late && Touches(c, support, level, b))
      && (now == FAR <==> !late && !Touches(c, support, level, b) && stay > c.approachExpiry)
      && (now == APPROACHING <==> !late && !Touches(c, support, level, b) && stay <= c.approachExpiry)
    case TOUCHED =>
      && (now == EXPIRED <==> late || (!Breaks(c, support, level, b) && stay > c.approachExpiry))
      && (now == SWEPT <==> !late && Breaks(c, support, level, b) && !Overshoots(c, support, level, b))
      && (now == FAILED <==> !late && Breaks(c, support, level, b) && Overshoots(c, support, level, b))
      && (now == TOUCHED <==> !late && !Breaks(c, support, level, b) && stay <= c.approachExpiry)
    case SWEPT =>
      && (now == EXPIRED <==> late)
      && (now == ABSORPTION_CANDIDATE <==> !late && Absorbs(c, support, b))
      && (now == FAILED <==> !late && !Absorbs(c, support, b) && stay > c.sweepToAbsorption)
      && (now == SWEPT <==> !late && !Absorbs(c, support, b) && stay <= c.sweepToAbsorption)
    case ABSORPTION_CANDIDATE =>
      var flips := BookFlips(support, b) || DeltaFlips(support, b);
      && (now == EXPIRED <==> late)
      && (now == FLOW_FLIPPED <==> !late && flips)
      && (now == FAILED <==> !late && !flips && stay > c.absorptionToFlip)
      && (now == ABSORPTION_CANDIDATE <==> !late && !flips && stay <= c.absorptionToFlip)
    case FLOW_FLIPPED =>
      && (now == EXPIRED <==> late)
      && (now == RECLAIMED <==> !late && run >= c.reclaimK)
      && (now == FAILED <==> !late && run < c.reclaimK && stay > c.flipToReclaim)
      && (now == FLOW_FLIPPED <==> !late && run < c.reclaimK && stay <= c.flipToReclaim)
    case RECLAIMED =>
      && (now == EXPIRED <==> late)
      && (now == ARMED <==> !late && Retests(support, level, b))
      && (now == FAILED <==> !late && !Retests(support, level, b) && ClosesBeyond(support, level, b))
      && (now == RECLAIMED <==> !late && !Retests(support, level, b) && !ClosesBeyond(support, level, b))
    case ARMED =>
      var hit := swing.Some? && Hits(c, support, swing.value, b);
      && (now == TRIGGERED <==> !late && hit)
      && (now == FAILED <==> !late && !hit && ClosesBeyond(support, level, b))
      && (now == EXPIRED <==> late || (!hit && !ClosesBeyond(support, level, b) && stay > c.armedExpiry))
      && (now == ARMED <==> !late && !hit && !ClosesBeyond(support, level, b) && stay <= c.armedExpiry)
    case _ =>
      now == was
  }

  /** The number of closes inside that end with this bar. */
  function RunWith(support: bool, level: real, run: int, b: Bar): int {
    if ClosesInside(support, level, b) then run + 1 else 0
  }

  /** The price of the bar furthest beyond a level, and furthest on the reclaiming side. */
  function Tip(support: bool, b: Bar): real {
    if support then b.low else b.high
  }

  function Swing(support: bool, b: Bar): real {
    if support then b.high else b.low
  }

  function QualityOf(support: bool, was: Level, now: Level, b: Bar): Quality {
    if !b.hasDepth then NoDepth
    else if was == ABSORPTION_CANDIDATE && now == FLOW_FLIPPED && !BookFlips(support, b) then DeltaOnly
    else Good
  }

  /** What else the bar changes: it is logged if it moves the machine, counts as a close inside after the flip,
      pushes the extreme of a sweep, sets the armed swing, and fixes the outcome. */
  ghost predicate Effects(c: Config, support: bool, level: real, m: Machine, b: Bar, t: Machine) {
    && t.barsInState == (if t.state == m.state then m.barsInState else 0)
    && t.barsInSeq == (if m.state == FAR && t.state != FAR then 1 else if m.state != FAR && t.state == FAR then 0 else m.barsInSeq)
    && t.log == (if t.state == m.state then m.log
                 else m.log + [Transition(b.ts, m.state, t.state, QualityOf(support, m.state, t.state, b))])
    && t.reclaimRun == (if m.state == FLOW_FLIPPED then RunWith(support, level, m.reclaimRun, b) else m.reclaimRun)
    && t.armedSwing == (if m.state == RECLAIMED && t.state == ARMED then Some(Swing(support, b)) else m.armedSwing)
    && t.sweepExtreme == (if m.state == TOUCHED && t.state == SWEPT then Some(Tip(support, b))
                          else if m.state == SWEPT then Some(Further(support, m.sweepExtreme, Tip(support, b)))
                          else m.sweepExtreme)
    && t.outcome == (if m.state == ARMED && t.state == TRIGGERED && m.armedSwing.Some? && m.sweepExtreme.Some?
                     then Some(Reached(c, support, b.ts, m.armedSwing.value, m.sweepExtreme.value)) else m.outcome)
  }

  function Further(support: bool, was: Option<real>, p: real): real {
    if was.Some? && (if support then was.value < p else p < was.value) then was.value else p
  }

  /** Entry trigger_ticks beyond the swing, stop at the extreme, and the distance between them. */
  function Reached(c: Config, support: bool, ts: int, swing: real, extreme: real): Outcome {
    var trigger := if support then swing + c.triggerTicks * c.tick else swing - c.triggerTicks * c.tick;
    Outcome(ts, trigger, extreme, support, if trigger >= extreme then trigger - extreme else extreme - trigger)
  }

  lemma DistanceIs(level: real, close: real, d: real)
    ensures Abs(close - level) <= d <==> level - d <= close <= level + d
  {
  }

  /** The program's measures say the same. */
  lemma MeasuresAre(c: Config, support: bool, level: real, b: Bar)
    ensures Nears(c, level, b) <==> Truthy(b.atr) && Abs(b.close - level) <= Times(c.approachAtr, b.atr.value)
    ensures Touches(c, support, level, b) <==>
            Abs(b.close - level) <= Times(c.touchTicks, c.tick) || Pierced(support, level, b) > 0.0
    ensures Breaks(c, support, level, b) <==> Pierced(support, level, b) >= Times(c.sweepMinTicks, c.tick)
    ensures Overshoots(c, support, level, b) <==>
            Truthy(b.atr) && Pierced(support, level, b) > Times(c.sweepMaxAtr, b.atr.value)
  {
    DistanceIs(level, b.close, Times(c.touchTicks, c.tick));
    if b.atr.Some? {
      DistanceIs(level, b.close, Times(c.approachAtr, b.atr.value));
    }
    hide Abs;
  }

  lemma AbsorbsIs(c: Config, support: bool, b: Bar)
    ensures Absorbs(c, support, b) <==>
            && LowEfficiency(if support then b.effDn else b.effUp, b.effP25)
            && (Elevated(c, b) || DepthHold(c, b, if support then b.refillsBid else b.refillsAsk))
  {
    assert Max(b.volMed20, 1.0) == if 1.0 <= b.volMed20 then b.volMed20 else 1.0;
    assert Times(c.elevatedVolMult, 1.0) == c.elevatedVolMult;
  }

  lemma HitsIs(c: Config, support: bool, swing: real, b: Bar)
    ensures Hits(c, support, swing, b) <==>
            var trigger := TriggerPrice(c, support, Some(swing), b); if support then b.high >= trigger else b.low <= trigger
  {
  }

  lemma ReachedIs(c: Config, support: bool, swing: real, extreme: real, b: Bar)
    ensures var trigger := TriggerPrice(c, support, Some(swing), b);
            Reached(c, support, b.ts, swing, extreme) == Outcome(b.ts, trigger, extreme, support, Abs(trigger - extreme))
  {
  }

  lemma FarRule(c: Config, support: bool, level: real, m: Machine, b: Bar, stay: int, inSeq: int, run: int, swing: Option<real>)
    requires m.state == FAR
    ensures Rule(c, support, level, FAR, FromFar(c, level, m, b).state, b, stay, inSeq, run, swing)
    ensures Effects(c, support, level, m, b, FromFar(c, level, m, b))
  {
    MeasuresAre(c, support, level, b);
    hide Times, Abs, Nears, Truthy;
  }

  lemma ApproachingRule(c: Config, support: bool, level: real, m: Machine, b: Bar, inSeq: int, run: int, swing: Option<real>)
    requires m.state == APPROACHING && inSeq <= c.totalExpiry
    ensures Rule(c, support, level, m.state, FromApproaching(c, support, level, m, b).state, b, m.barsInState, inSeq, run, swing)
    ensures Effects(c, support, level, m, b, FromApproaching(c, support, level, m, b))
  {
    MeasuresAre(c, support, level, b);
    hide Times, Abs, Touches, Pierced;
  }

  lemma TouchedRule(c: Config, support: bool, level: real, m: Machine, b: Bar, inSeq: int, run: int, swing: Option<real>)
    requires m.state == TOUCHED && inSeq <= c.totalExpiry
    ensures Rule(c, support, level, m.state, FromTouched(c, support, level, m, b).state, b, m.barsInState, inSeq, run, swing)
    ensures Effects(c, support, level, m, b, FromTouched(c, support, level, m, b))
  {
    MeasuresAre(c, support, level, b);
    hide Times, Abs, Breaks, Overshoots, Pierced, Truthy;
  }

  lemma SweptRule(c: Config, support: bool, level: real, m: Machine, b: Bar, inSeq: int, run: int, swing: Option<real>)
    requires m.state == SWEPT && inSeq <= c.totalExpiry
    ensures Rule(c, support, level, m.state, FromSwept(c, support, m, b).state, b, m.barsInState, inSeq, run, swing)
    ensures Effects(c, support, level, m, b, FromSwept(c, support, m, b))
  {
    AbsorbsIs(c, support, b);
    hide Times, Absorbs, LowEfficiency, Elevated, DepthHold;
  }

  lemma AbsorptionRule(c: Config, support: bool, level: real, m: Machine, b: Bar, inSeq: int, run: int, swing: Option<real>)
    requires m.state == ABSORPTION_CANDIDATE && inSeq <= c.totalExpiry
    ensures Rule(c, support, level, m.state, FromAbsorption(c, support, m, b).state, b, m.barsInState, inSeq, run, swing)
    ensures Effects(c, support, level, m, b, FromAbsorption(c, support, m, b))
  {
  }

  lemma FlowFlippedRule(c: Config, support: bool, level: real, m: Machine, b: Bar, inSeq: int, swing: Option<real>)
    requires m.state == FLOW_FLIPPED && inSeq <= c.totalExpiry
    ensures Rule(c, support, level, m.state, FromFlowFlipped(c, support, level, m, b).state, b, m.barsInState, inSeq, RunWith(support, level, m.reclaimRun, b), swing)
    ensures Effects(c, support, level, m, b, FromFlowFlipped(c, support, level, m, b))
  {
  }

  lemma ReclaimedRule(c: Config, support: bool, level: real, m: Machine, b: Bar, inSeq: int, run: int, swing: Option<real>)
    requires m.state == RECLAIMED && inSeq <= c.totalExpiry
    ensures Rule(c, support, level, m.state, FromReclaimed(c, support, level, m, b).state, b, m.barsInState, inSeq, run, swing)
    ensures Effects(c, support, level, m, b, FromReclaimed(c, support, level, m, b))
  {
  }

  lemma ArmedRule(c: Config, support: bool, level: real, m: Machine, b: Bar, inSeq: int, run: int)
    requires m.state == ARMED && m.armedSwing.Some? && m.sweepExtreme.Some? && inSeq <= c.totalExpiry
    ensures Rule(c, support, level, m.state, FromArmed(c, support, level, m, b).state, b, m.barsInState, inSeq, run, m.armedSwing)
    ensures Effects(c, support, level, m, b, FromArmed(c, support, level, m, b))
  {
    HitsIs(c, support, m.armedSwing.value, b);
    ReachedIs(c, support, m.armedSwing.value, m.sweepExtreme.value, b);
    hide Times, Abs, Hits, TriggerPrice, Reached;
  }

  /** One bar, in those terms. */
  lemma StepRule(c: Config, support: bool, level: real, m0: Machine, b: Bar, run: int, swing: Option<real>)
    requires !Terminal(m0.state) && (m0.state == FAR ==> m0.barsInSeq == 0)
    requires m0.state == ARMED ==> m0.armedSwing.Some? && m0.sweepExtreme.Some? && swing == m0.armedSwing
    requires m0.state == FLOW_FLIPPED ==> run == RunWith(support, level, m0.reclaimRun, b)
    ensures var t := Step(c, support, level, m0, b);
            && Rule(c, support, level, m0.state, t.state, b, m0.barsInState + 1, m0.barsInSeq + 1, run, swing)
            && (m0.state == FAR || m0.barsInSeq + 1 <= c.totalExpiry ==> Effects(c, support, level, Ticked(m0), b, t))
            && (t.state != m0.state ==> t.log == m0.log + [Transition(b.ts, m0.state, t.state, QualityOf(support, m0.state, t.state, b))])
            && (t.state == m0.state ==> t.log == m0.log)
  {
    hide FromFar, FromApproaching, FromTouched, FromSwept, FromAbsorption, FromFlowFlipped, FromReclaimed, FromArmed;
    hide Nears, Touches, Breaks, Overshoots, Absorbs, BookFlips, DeltaFlips, Retests, ClosesBeyond, Hits;
    var m, q := Ticked(m0), m0.barsInSeq + 1;
    if m0.state == FAR || q <= c.totalExpiry {
      match m0.state {
        case FAR => FarRule(c, support, level, m, b, m.barsInState, q, run, swing);
        case APPROACHING => ApproachingRule(c, support, level, m, b, q, run, swing);
        case TOUCHED => TouchedRule(c, support, level, m, b, q, run, swing);
        case SWEPT => SweptRule(c, support, level, m, b, q, run, swing);
        case ABSORPTION_CANDIDATE => AbsorptionRule(c, support, level, m, b, q, run, swing);
        case FLOW_FLIPPED => FlowFlippedRule(c, support, level, m, b, q, swing);
        case RECLAIMED => ReclaimedRule(c, support, level, m, b, q, run, swing);
        case ARMED => ArmedRule(c, support, level, m, b, q, run);
      }
    }
  }

  // ---------------------------------------------------------------- whole runs, on the bars

  /** The states of a run: before the first bar and after each one. */
  ghost function Trace(c: Config, support: bool, level: real, bars: seq<Bar>): (r: seq<Level>)
    ensures |r| == |bars| + 1
  {
    if bars == [] then [FAR] else Trace(c, support, level, bars[..|bars| - 1]) + [Run(c, support, level, bars).state]
  }

  lemma {:induction false} TraceIs(c: Config, support: bool, level: real, bars: seq<Bar>, i: nat)
    requires i <= |bars|
    ensures Trace(c, support, level, bars)[i] == Run(c, support, level, bars[..i]).state
  {
    if i == |bars| {
      assert bars[..i] == bars;
    } else {
      TraceIs(c, support, level, bars[..|bars| - 1], i);
      assert bars[..|bars| - 1][..i] == bars[..i];
    }
  }

  /** How many bars were met in the present state, after the one that brought it about. */
  function Stay(tr: seq<Level>): (n: nat)
    requires tr != []
    ensures n < |tr|
    ensures forall i :: |tr| - 1 - n <= i < |tr| ==> tr[i] == tr[|tr| - 1]
    ensures n < |tr| - 1 ==> tr[|tr| - 2 - n] != tr[|tr| - 1]
  {
    var k := |tr| - 1;
    if k == 0 || tr[k] != tr[k - 1] then 0 else Stay(tr[..k]) + 1
  }

  /** How many bars were met since the state last was FAR. */
  function Sequence(tr: seq<Level>): (n: nat)
    requires tr != [] && tr[0] == FAR
    ensures n < |tr| && tr[|tr| - 1 - n] == FAR && forall i :: |tr| - 1 - n < i < |tr| ==> tr[i] != FAR
  {
    var k := |tr| - 1;
    if tr[k] == FAR then 0 else Sequence(tr[..k]) + 1
  }

  /** How many bars at the end, none of them before `from`, closed inside. */
  function InsideRun(support: bool, level: real, bars: seq<Bar>, from: nat): nat {
    if |bars| <= from || !ClosesInside(support, level, bars[|bars| - 1]) then 0
    else InsideRun(support, level, bars[..|bars| - 1], from) + 1
  }

  /** The last `k` bars closed inside. */
  ghost predicate LastInside(support: bool, level: real, bars: seq<Bar>, k: nat) {
    k <= |bars| && forall i :: |bars| - k <= i < |bars| ==> ClosesInside(support, level, bars[i])
  }

  lemma {:induction false} InsideRunMeans(support: bool, level: real, bars: seq<Bar>, from: nat, k: nat)
    requires from <= |bars|
    ensures InsideRun(support, level, bars, from) >= k <==>
            k <= |bars| - from && LastInside(support, level, bars, k)
  {
    if k > 0 && |bars| > from {
      var before := bars[..|bars| - 1];
      hide ClosesInside;
      InsideRunMeans(support, level, before, from, k - 1);
      assert forall i :: 0 <= i < |before| ==> before[i] == bars[i];
    }
  }

  /** The swing of the bar before bar `from`. */
  function SwingBefore(support: bool, bars: seq<Bar>, from: nat): Option<real>
    requires from <= |bars|
  {
    if from == 0 then None else Some(Swing(support, bars[from - 1]))
  }

  /** `tr` is the trace of `bars`, ending in `m`. */
  ghost predicate Traces(tr: seq<Level>, bars: seq<Bar>, m: Machine) {
    |tr| == |bars| + 1 && tr[0] == FAR && tr[|bars|] == m.state
  }

  /** The first bar met in the present state. */
  function From(tr: seq<Level>): nat
    requires tr != []
  {
    |tr| - 1 - Stay(tr)
  }

  /** What the machine remembers of the bars it has met. */
  ghost predicate Remembers(support: bool, level: real, tr: seq<Level>, bars: seq<Bar>, m: Machine) {
    && Traces(tr, bars, m)
    && (!Terminal(m.state) ==> m.barsInState == Stay(tr) && m.barsInSeq == Sequence(tr))
    && (Rank(m.state) < 5 ==> m.reclaimRun == 0)
    && (m.state == FLOW_FLIPPED ==> m.reclaimRun == InsideRun(support, level, bars, From(tr)))
    && (Swept(m.state) ==> m.sweepExtreme.Some?)
    && (m.state == ARMED ==> m.armedSwing.Some? && m.armedSwing == SwingBefore(support, bars, From(tr)))
  }

  /** Bar by bar, the next state is decided by the bars met in the present one. */
  ghost predicate Follows(c: Config, support: bool, level: real, tr: seq<Level>, bars: seq<Bar>, now: Level)
    requires |tr| == |bars| > 0 && tr[0] == FAR
  {
    Rule(c, support, level, tr[|tr| - 1], now, bars[|bars| - 1], Stay(tr) + 1, Sequence(tr) + 1,
         InsideRun(support, level, bars, From(tr)), SwingBefore(support, bars, From(tr)))
  }

  lemma StaySnoc(tr: seq<Level>, x: Level)
    requires tr != [] && tr[0] == FAR
    ensures Stay(tr + [x]) == if x == tr[|tr| - 1] then Stay(tr) + 1 else 0
    ensures Sequence(tr + [x]) == if x == FAR then 0 else Sequence(tr) + 1
  {
    assert (tr + [x])[..|tr|] == tr;
  }

  lemma InsideSnoc(support: bool, level: real, bars: seq<Bar>, b: Bar, from: nat)
    requires from <= |bars|
    ensures InsideRun(support, level, bars + [b], from) == RunWith(support, level, InsideRun(support, level, bars, from), b)
    ensures InsideRun(support, level, bars + [b], |bars| + 1) == 0
    ensures SwingBefore(support, bars + [b], from) == SwingBefore(support, bars, from)
    ensures SwingBefore(support, bars + [b], |bars| + 1) == Some(Swing(support, b))
  {
    assert (bars + [b])[..|bars|] == bars;
  }

  /** What a bar does to the counters and prices a machine keeps, unless it ends the run. */
  ghost predicate Carries(support: bool, level: real, m: Machine, b: Bar, t: Machine) {
    && (t.state == m.state || Allowed(m.state, t.state))
    && (!Terminal(t.state) ==>
          && t.barsInState == (if t.state == m.state then m.barsInState + 1 else 0)
          && t.barsInSeq == (if t.state == FAR then 0 else m.barsInSeq + 1))
    && (Rank(t.state) < 5 ==> t.reclaimRun == m.reclaimRun)
    && (t.state == FLOW_FLIPPED ==>
          t.reclaimRun == if m.state == FLOW_FLIPPED then RunWith(support, level, m.reclaimRun, b) else m.reclaimRun)
    && (t.state == ARMED ==> t.armedSwing == if m.state == ARMED then m.armedSwing else Some(Swing(support, b)))
    && (Swept(t.state) || t.state == TRIGGERED ==>
          t.sweepExtreme == if m.state == TOUCHED then Some(Tip(support, b))
                            else if m.state == SWEPT then Some(Further(support, m.sweepExtreme, Tip(support, b)))
                            else m.sweepExtreme)
  }

  lemma StepCarries(c: Config, support: bool, level: real, m: Machine, b: Bar)
    requires !Terminal(m.state) && (m.state == FAR ==> m.barsInSeq == 0)
    requires m.state == ARMED ==> m.armedSwing.Some? && m.sweepExtreme.Some?
    ensures Carries(support, level, m, b, Step(c, support, level, m, b))
  {
    StepRule(c, support, level, m, b, RunWith(support, level, m.reclaimRun, b), m.armedSwing);
    OneTransition(c, support, level, m, b);
    if m.state != FAR && m.barsInSeq + 1 > c.totalExpiry {
      LateExpires(c, support, level, m, b);
    }
    hide Step, Rule, RunWith, Further, QualityOf, Reached;
  }

  lemma LateExpires(c: Config, support: bool, level: real, m: Machine, b: Bar)
    requires !Terminal(m.state) && m.state != FAR && m.barsInSeq + 1 > c.totalExpiry
    ensures Step(c, support, level, m, b).state == EXPIRED
  {
  }

  lemma RemembersCarried(support: bool, level: real, tr: seq<Level>, bars: seq<Bar>, m: Machine, b: Bar, t: Machine)
    requires Remembers(support, level, tr, bars, m) && !Terminal(m.state) && Carries(support, level, m, b, t)
    ensures Remembers(support, level, tr + [t.state], bars + [b], t)
  {
    hide Stay, Sequence, InsideRun, SwingBefore, RunWith, Further;
    StaySnoc(tr, t.state);
    InsideSnoc(support, level, bars, b, From(tr));
  }

  lemma TerminalRemembers(support: bool, level: real, tr: seq<Level>, bars: seq<Bar>, m: Machine, b: Bar)
    requires Remembers(support, level, tr, bars, m) && Terminal(m.state)
    ensures Remembers(support, level, tr + [m.state], bars + [b], m)
  {
  }

  lemma RuleStays(c: Config, support: bool, level: real, was: Level, b: Bar, stay: int, inSeq: int, run: int, swing: Option<real>)
    requires Terminal(was)
    ensures Rule(c, support, level, was, was, b, stay, inSeq, run, swing)
  {
  }

  lemma FollowsStep(c: Config, support: bool, level: real, tr: seq<Level>, bars: seq<Bar>, m: Machine, b: Bar)
    requires Remembers(support, level, tr, bars, m)
    ensures Follows(c, support, level, tr, bars + [b], Step(c, support, level, m, b).state)
  {
    hide Step, Rule, Stay, Sequence, InsideRun, SwingBefore, RunWith;
    var from, more := From(tr), bars + [b];
    InsideSnoc(support, level, bars, b, from);
    var run, swing := InsideRun(support, level, more, from), SwingBefore(support, more, from);
    if Terminal(m.state) {
      StepIsCausal(c, support, level, m, b);
      RuleStays(c, support, level, m.state, b, Stay(tr) + 1, Sequence(tr) + 1, run, swing);
    } else {
      RemembersMeans(support, level, tr, bars, m);
      StepRule(c, support, level, m, b, run, swing);
    }
  }

  lemma StepRemembers(c: Config, support: bool, level: real, tr: seq<Level>, bars: seq<Bar>, m: Machine, b: Bar)
    requires Remembers(support, level, tr, bars, m)
    ensures var t := Step(c, support, level, m, b); Remembers(support, level, tr + [t.state], bars + [b], t)
  {
    hide Step, Remembers, Carries;
    RemembersMeans(support, level, tr, bars, m);
    if Terminal(m.state) {
      StepIsCausal(c, support, level, m, b);
      TerminalRemembers(support, level, tr, bars, m, b);
    } else {
      StepCarries(c, support, level, m, b);
      RemembersCarried(support, level, tr, bars, m, b, Step(c, support, level, m, b));
    }
  }

  lemma RunNext(c: Config, support: bool, level: real, bars: seq<Bar>)
    requires bars != []
    ensures var before, b := bars[..|bars| - 1], bars[|bars| - 1];
            && before + [b] == bars
            && Run(c, support, level, bars) == Step(c, support, level, Run(c, support, level, before), b)
            && Trace(c, support, level, bars) == Trace(c, support, level, before) + [Run(c, support, level, bars).state]
  {
    hide Step;
  }

  lemma StartRemembers(c: Config, support: bool, level: real)
    ensures Remembers(support, level, Trace(c, support, level, []), [], Run(c, support, level, []))
  {
  }

  /** On every run, every bar moves the machine exactly as the bars met since it entered its state say. */
  lemma {:induction false} TransitionOfRun(c: Config, support: bool, level: real, bars: seq<Bar>)
    ensures Remembers(support, level, Trace(c, support, level, bars), bars, Run(c, support, level, bars))
    ensures bars != [] ==>
              Trace(c, support, level, bars[..|bars| - 1])[0] == FAR
              && Follows(c, support, level, Trace(c, support, level, bars[..|bars| - 1]), bars, Run(c, support, level, bars).state)
  {
    hide *;
    if bars != [] {
      var before, b := bars[..|bars| - 1], bars[|bars| - 1];
      var m, tr := Run(c, support, level, before), Trace(c, support, level, before);
      TransitionOfRun(c, support, level, before);
      RunNext(c, support, level, bars);
      RemembersMeans(support, level, tr, before, m);
      FollowsStep(c, support, level, tr, before, m, b);
      StepRemembers(c, support, level, tr, before, m, b);
    } else {
      StartRemembers(c, support, level);
    }
  }

  lemma RemembersMeans(support: bool, level: real, tr: seq<Level>, bars: seq<Bar>, m: Machine)
    requires Remembers(support, level, tr, bars, m)
    ensures Traces(tr, bars, m) && |tr| == |bars| + 1 && tr[0] == FAR
    ensures m.state == FAR ==> m.barsInSeq == 0
    ensures m.state == ARMED ==> m.armedSwing.Some? && m.sweepExtreme.Some?
  {
  }

  /** Each bar that moves the machine is logged, with its time and the quality of its data; no other is. */
  lemma LoggedBar(c: Config, support: bool, level: real, bars: seq<Bar>)
    requires bars != []
    ensures var m, t, b := Run(c, support, level, bars[..|bars| - 1]), Run(c, support, level, bars), bars[|bars| - 1];
            t.log == if t.state == m.state then m.log
                     else m.log + [Transition(b.ts, m.state, t.state, QualityOf(support, m.state, t.state, b))]
  {
    hide Step, Remembers, Rule, Effects;
    var before, b := bars[..|bars| - 1], bars[|bars| - 1];
    var m := Run(c, support, level, before);
    TransitionOfRun(c, support, level, before);
    RemembersMeans(support, level, Trace(c, support, level, before), before, m);
    if Terminal(m.state) {
      StepIsCausal(c, support, level, m, b);
    } else {
      StepRule(c, support, level, m, b, RunWith(support, level, m.reclaimRun, b), m.armedSwing);
    }
  }

  /** In particular the level is reclaimed at a bar if and only if the last reclaim_K bars, all after the
      flip, closed inside, and the sequence is not too long. */
  lemma ReclaimedIff(c: Config, support: bool, level: real, bars: seq<Bar>)
    requires bars != [] && Run(c, support, level, bars[..|bars| - 1]).state == FLOW_FLIPPED && c.reclaimK >= 0
    ensures var tr := Trace(c, support, level, bars[..|bars| - 1]);
            tr[0] == FAR &&
            (Run(c, support, level, bars).state == RECLAIMED <==>
             && Sequence(tr) + 1 <= c.totalExpiry
             && c.reclaimK <= |bars| - From(tr)
             && LastInside(support, level, bars, c.reclaimK))
  {
    hide *;
    var before := bars[..|bars| - 1];
    var tr := Trace(c, support, level, before);
    TransitionOfRun(c, support, level, bars);
    TraceIs(c, support, level, before, |before|);
    assert before[..|before|] == before;
    FromWithin(tr);
    InsideRunMeans(support, level, bars, From(tr), c.reclaimK);
    FlippedRule(c, support, level, tr, bars, Run(c, support, level, bars).state);
  }

  lemma FromWithin(tr: seq<Level>)
    requires tr != []
    ensures From(tr) < |tr|
  {
  }

  lemma FlippedRule(c: Config, support: bool, level: real, tr: seq<Level>, bars: seq<Bar>, now: Level)
    requires |tr| == |bars| > 0 && tr[0] == FAR && Follows(c, support, level, tr, bars, now) && tr[|tr| - 1] == FLOW_FLIPPED
    ensures now == RECLAIMED <==> Sequence(tr) + 1 <= c.totalExpiry && InsideRun(support, level, bars, From(tr)) >= c.reclaimK
  {
    hide InsideRun, Stay, Sequence, SwingBefore;
  }

  // ---------------------------------------------------------------- the sweep's extreme

  /** Bar `i` swept the level, or was met while it was swept. */
  ghost predicate InSweep(tr: seq<Level>, i: int) {
    0 <= i < |tr| - 1 && (tr[i] == SWEPT || tr[i + 1] == SWEPT)
  }

  predicate NoFurther(support: bool, p: real, q: real) {
    if support then p <= q else q <= p
  }

  /** `p` is the furthest price of those bars. */
  ghost predicate Furthest(support: bool, tr: seq<Level>, bars: seq<Bar>, p: real)
    requires |tr| == |bars| + 1
  {
    && (exists i :: InSweep(tr, i) && Tip(support, bars[i]) == p)
    && forall i :: InSweep(tr, i) ==> NoFurther(support, p, Tip(support, bars[i]))
  }

  /** Before the sweep there are no such bars; afterwards the stop is the furthest of them. */
  ghost predicate Extremes(support: bool, tr: seq<Level>, bars: seq<Bar>, m: Machine)
    requires |tr| == |bars| + 1
  {
    && (Rank(m.state) < 3 ==> forall i :: 0 <= i < |tr| ==> tr[i] != SWEPT)
    && (Swept(m.state) || m.state == TRIGGERED ==> m.sweepExtreme.Some? && Furthest(support, tr, bars, m.sweepExtreme.value))
  }

  lemma FurthestFirst(support: bool, tr: seq<Level>, bars: seq<Bar>, b: Bar)
    requires |tr| == |bars| + 1 && forall i :: 0 <= i < |tr| ==> tr[i] != SWEPT
    ensures Furthest(support, tr + [SWEPT], bars + [b], Tip(support, b))
  {
    var more := tr + [SWEPT];
    assert InSweep(more, |bars|) && (bars + [b])[|bars|] == b;
  }

  lemma FurthestMore(support: bool, tr: seq<Level>, bars: seq<Bar>, p: real, now: Level, b: Bar)
    requires |tr| == |bars| + 1 && Furthest(support, tr, bars, p)
    ensures tr[|bars|] == SWEPT ==> Furthest(support, tr + [now], bars + [b], Further(support, Some(p), Tip(support, b)))
    ensures tr[|bars|] != SWEPT && now != SWEPT ==> Furthest(support, tr + [now], bars + [b], p)
  {
    hide Tip;
    var n, tr', bars' := |bars|, tr + [now], bars + [b];
    var i :| InSweep(tr, i) && Tip(support, bars[i]) == p;
    assert InSweep(tr', i) && Tip(support, bars'[i]) == p;
    forall j | InSweep(tr', j) ensures j == n || NoFurther(support, p, Tip(support, bars'[j])) {
      assert j < n ==> InSweep(tr, j) && bars'[j] == bars[j];
    }
    assert bars'[n] == b && tr'[n] == tr[n];
    assert tr[n] == SWEPT ==> InSweep(tr', n);
  }

  lemma ExtremesCarried(support: bool, level: real, tr: seq<Level>, bars: seq<Bar>, m: Machine, b: Bar, t: Machine)
    requires Traces(tr, bars, m) && Extremes(support, tr, bars, m) && !Terminal(m.state) && Carries(support, level, m, b, t)
    ensures Extremes(support, tr + [t.state], bars + [b], t)
  {
    hide Furthest, Further, RunWith;
    if Swept(t.state) || t.state == TRIGGERED {
      if m.state == TOUCHED {
        FurthestFirst(support, tr, bars, b);
      } else {
        FurthestMore(support, tr, bars, m.sweepExtreme.value, t.state, b);
      }
    }
  }

  lemma TerminalExtremes(support: bool, tr: seq<Level>, bars: seq<Bar>, m: Machine, b: Bar)
    requires Traces(tr, bars, m) && Extremes(support, tr, bars, m) && Terminal(m.state)
    ensures Extremes(support, tr + [m.state], bars + [b], m)
  {
    hide Furthest;
    if m.state == TRIGGERED {
      FurthestMore(support, tr, bars, m.sweepExtreme.value, TRIGGERED, b);
    }
  }

  /** On every run the sweep's extreme is the furthest price of the bars from the sweep to the absorption. */
  lemma {:induction false} ExtremeOfRun(c: Config, support: bool, level: real, bars: seq<Bar>)
    ensures Extremes(support, Trace(c, support, level, bars), bars, Run(c, support, level, bars))
  {
    hide *;
    if bars != [] {
      var before, b := bars[..|bars| - 1], bars[|bars| - 1];
      var m, tr := Run(c, support, level, before), Trace(c, support, level, before);
      ExtremeOfRun(c, support, level, before);
      TransitionOfRun(c, support, level, before);
      RunNext(c, support, level, bars);
      StepExtremes(c, support, level, tr, before, m, b);
    } else {
      StartExtremes(c, support, level);
    }
  }

  lemma StartExtremes(c: Config, support: bool, level: real)
    ensures Extremes(support, Trace(c, support, level, []), [], Run(c, support, level, []))
  {
  }

  lemma StepExtremes(c: Config, support: bool, level: real, tr: seq<Level>, bars: seq<Bar>, m: Machine, b: Bar)
    requires Remembers(support, level, tr, bars, m) && Extremes(support, tr, bars, m)
    ensures var t := Step(c, support, level, m, b); Extremes(support, tr + [t.state], bars + [b], t)
  {
    hide Step, Remembers, Carries, Extremes;
    RemembersMeans(support, level, tr, bars, m);
    if Terminal(m.state) {
      StepIsCausal(c, support, level, m, b);
      TerminalExtremes(support, tr, bars, m, b);
    } else {
      StepCarries(c, support, level, m, b);
      ExtremesCarried(support, level, tr, bars, m, b, Step(c, support, level, m, b));
    }
  }

  /** The bar that triggers fixes the outcome: entry trigger_ticks beyond the swing of the bar that armed the
      machine, stop at the sweep's extreme. */
  lemma OutcomeOfRun(c: Config, support: bool, level: real, bars: seq<Bar>)
    requires bars != [] && Run(c, support, level, bars).state == TRIGGERED
    requires Run(c, support, level, bars[..|bars| - 1]).state != TRIGGERED
    ensures var tr := Trace(c, support, level, bars[..|bars| - 1]);
            && From(tr) > 0 && Run(c, support, level, bars).sweepExtreme.Some?
            && Run(c, support, level, bars).outcome
               == Some(Reached(c, support, bars[|bars| - 1].ts, Swing(support, bars[From(tr) - 1]), Run(c, support, level, bars).sweepExtreme.value))
  {
    hide *;
    var before, b := bars[..|bars| - 1], bars[|bars| - 1];
    TransitionOfRun(c, support, level, before);
    RunNext(c, support, level, bars);
    OutcomeStep(c, support, level, Trace(c, support, level, before), before, Run(c, support, level, before), b);
  }

  lemma OutcomeStep(c: Config, support: bool, level: real, tr: seq<Level>, bars: seq<Bar>, m: Machine, b: Bar)
    requires Remembers(support, level, tr, bars, m) && m.state != TRIGGERED && Step(c, support, level, m, b).state == TRIGGERED
    ensures var t := Step(c, support, level, m, b);
            && 0 < From(tr) <= |bars| && t.sweepExtreme.Some?
            && t.outcome == Some(Reached(c, support, b.ts, Swing(support, bars[From(tr) - 1]), t.sweepExtreme.value))
  {
    OneTransition(c, support, level, m, b);
    StepIsCausal(c, support, level, m, b);
    hide Step, Stay, Sequence, InsideRun, Rule, RunWith, QualityOf, Reached;
    assert m.state == ARMED;
    if m.barsInSeq + 1 > c.totalExpiry {
      LateExpires(c, support, level, m, b);
    }
    StepRule(c, support, level, m, b, RunWith(support, level, m.reclaimRun, b), m.armedSwing);
  }

  // ---------------------------------------------------------------- the machine object

  class LevelMachine {
    const support: bool          // PDL and ORL; otherwise PDH and ORH
    const level: real
    const cfg: Config
    var state: Level
    var transitions: seq<Transition>
    var barsInSeq: int
    var barsInState: int
    var sweepExtreme: Option<real>
    var reclaimRun: int
    var armedSwing: Option<real>
    var outcome: Option<Outcome>

    function View(): Machine
      reads this
    {
      Machine(state, transitions, barsInSeq, barsInState, sweepExtreme, reclaimRun, armedSwing, outcome)
    }

    /** What the program relies on when it reads the sweep extreme and the armed swing. */
    ghost predicate Valid()
      reads this
    {
      && (Swept(state) ==> sweepExtreme.Some?)
      && (state == ARMED ==> armedSwing.Some?)
    }

    constructor (support: bool, level: real, cfg: Config)
      ensures Valid() && View() == Fresh && this.support == support && this.level == level && this.cfg == cfg
    {
      this.support, this.level, this.cfg := support, level, cfg;
      state, transitions, barsInSeq, barsInState := FAR, [], 0, 0;
      sweepExtreme, reclaimRun, armedSwing, outcome := None, 0, None, None;
    }

    method MoveTo(ts: int, to: Level, q: Quality)
      modifies `transitions, `state, `barsInState
      ensures View() == Move(old(View()), ts, to, q) && state == to
    {
      transitions := transitions + [Transition(ts, state, to, q)];
      state := to;
      barsInState := 0;
    }

    /** One bar. */
    method OnBar(f: Bar)
      requires Valid()
      modifies this
      ensures Valid() && View() == Step(cfg, support, level, old(View()), f)
    {
      hide Decide, Move;
      if Terminal(state) {
        return;
      }
      var dq := if f.hasDepth then Good else NoDepth;
      barsInSeq := barsInSeq + if state != FAR then 1 else 0;
      barsInState := barsInState + 1;
      if state != FAR && barsInSeq > cfg.totalExpiry {
        MoveTo(f.ts, EXPIRED, dq);
      } else {
        Dispatch(f, dq);
      }
    }

    method Dispatch(f: Bar, dq: Quality)
      requires Valid() && dq == DepthQuality(f) && !Terminal(state)
      modifies this
      ensures Valid()
      ensures View() == Decide(cfg, support, level, old(View()), f)
    {
      hide FromFar, FromApproaching, FromTouched, FromSwept, FromAbsorption, FromFlowFlipped, FromReclaimed, FromArmed;
      match state {
        case FAR => OnFar(f, dq);
        case APPROACHING => OnApproaching(f, dq);
        case TOUCHED => OnTouched(f, dq);
        case SWEPT => OnSwept(f, dq);
        case ABSORPTION_CANDIDATE => OnAbsorption(f, dq);
        case FLOW_FLIPPED => OnFlowFlipped(f, dq);
        case RECLAIMED => OnReclaimed(f, dq);
        case ARMED => OnArmed(f, dq);
        case _ =>
      }
    }

    method OnFar(f: Bar, dq: Quality)
      requires Valid() && dq == DepthQuality(f) && state == FAR
      modifies this
      ensures Valid()
      ensures View() == FromFar(cfg, level, old(View()), f)
    {
      hide Times;
      var dist := Abs(f.close - level);
      if Truthy(f.atr) && dist <= Times(cfg.approachAtr, f.atr.value) {
        MoveTo(f.ts, APPROACHING, dq);
        barsInSeq := 1;
      }
    }

    method OnApproaching(f: Bar, dq: Quality)
      requires Valid() && dq == DepthQuality(f) && state == APPROACHING
      modifies this
      ensures Valid()
      ensures View() == FromApproaching(cfg, support, level, old(View()), f)
    {
      hide Times;
      var dist := Abs(f.close - level);
      var pierced := if support then level - f.low else f.high - level;
      if dist <= Times(cfg.touchTicks, cfg.tick) || pierced > 0.0 {
        MoveTo(f.ts, TOUCHED, dq);
      } else if barsInState > cfg.approachExpiry {
        MoveTo(f.ts, FAR, dq);
        barsInSeq := 0;
      }
    }

    method OnTouched(f: Bar, dq: Quality)
      requires Valid() && dq == DepthQuality(f) && state == TOUCHED
      modifies this
      ensures Valid()
      ensures View() == FromTouched(cfg, support, level, old(View()), f)
    {
      hide Times;
      var pierced := if support then level - f.low else f.high - level;
      if pierced >= Times(cfg.sweepMinTicks, cfg.tick) {
        if Truthy(f.atr) && pierced > Times(cfg.sweepMaxAtr, f.atr.value) {
          MoveTo(f.ts, FAILED, dq);
        } else {
          sweepExtreme := Some(if support then f.low else f.high);
          MoveTo(f.ts, SWEPT, dq);
        }
      } else if barsInState > cfg.approachExpiry {
        MoveTo(f.ts, EXPIRED, dq);
      }
    }

    method OnSwept(f: Bar, dq: Quality)
      requires Valid() && dq == DepthQuality(f) && state == SWEPT
      modifies this
      ensures Valid()
      ensures View() == FromSwept(cfg, support, old(View()), f)
    {
      hide Times, LowEfficiency;
      var effAligned := if support then f.effDn else f.effUp;
      var defenseRefills := if support then f.refillsBid else f.refillsAsk;
      sweepExtreme := Some(if support then Min(sweepExtreme.value, f.low) else Max(sweepExtreme.value, f.high));
      var elevated := Elevated(cfg, f);
      var lowEff := LowEfficiency(effAligned, f.effP25);
      var depthHold := DepthHold(cfg, f, defenseRefills);
      if lowEff && (elevated || depthHold) {
        MoveTo(f.ts, ABSORPTION_CANDIDATE, dq);
      } else if barsInState > cfg.sweepToAbsorption {
        MoveTo(f.ts, FAILED, dq);
      }
    }

    method OnAbsorption(f: Bar, dq: Quality)
      requires Valid() && dq == DepthQuality(f) && state == ABSORPTION_CANDIDATE
      modifies this
      ensures Valid()
      ensures View() == FromAbsorption(cfg, support, old(View()), f)
    {
      hide Times;
      var flipDir := if support then 1.0 else -1.0;
      var ofiFlip := f.bookOfi.Some? && f.bookOfi.value * flipDir > 0.0;
      var deltaFlip := f.delta * flipDir > 0.0;
      if support {
        assert flipDir == 1.0;
      } else {
        assert flipDir == -1.0;
      }
      assert deltaFlip == Toward(support, f.delta);
      assert ofiFlip == (f.bookOfi.Some? && Toward(support, f.bookOfi.value));
      if ofiFlip || deltaFlip {
        MoveTo(f.ts, FLOW_FLIPPED, if ofiFlip then dq else if dq == Good then DeltaOnly else dq);
      } else if barsInState > cfg.absorptionToFlip {
        MoveTo(f.ts, FAILED, dq);
      }
    }

    method OnFlowFlipped(f: Bar, dq: Quality)
      requires Valid() && dq == DepthQuality(f) && state == FLOW_FLIPPED
      modifies this
      ensures Valid()
      ensures View() == FromFlowFlipped(cfg, support, level, old(View()), f)
    {
      hide Times;
      var backInside := if support then f.close > level else f.close < level;
      reclaimRun := if backInside then reclaimRun + 1 else 0;
      if reclaimRun >= cfg.reclaimK {
        MoveTo(f.ts, RECLAIMED, dq);
      } else if barsInState > cfg.flipToReclaim {
        MoveTo(f.ts, FAILED, dq);
      }
    }

    method OnReclaimed(f: Bar, dq: Quality)
      requires Valid() && dq == DepthQuality(f) && state == RECLAIMED
      modifies this
      ensures Valid()
      ensures View() == FromReclaimed(cfg, support, level, old(View()), f)
    {
      hide Times;
      var holds := if support then f.low >= level else f.high <= level;
      var lost := if support then f.close < level else f.close > level;
      if holds {
        armedSwing := Some(if support then f.high else f.low);
        MoveTo(f.ts, ARMED, dq);
      } else if lost {
        MoveTo(f.ts, FAILED, dq);
      }
    }

    method OnArmed(f: Bar, dq: Quality)
      requires Valid() && dq == DepthQuality(f) && state == ARMED
      modifies this
      ensures Valid()
      ensures View() == FromArmed(cfg, support, level, old(View()), f)
    {
      hide Times;
      var trig := if support then armedSwing.value + Times(cfg.triggerTicks, cfg.tick)
                  else armedSwing.value - Times(cfg.triggerTicks, cfg.tick);
      var hit := if support then f.high >= trig else f.low <= trig;
      var lost := if support then f.close < level else f.close > level;
      if hit {
        outcome := Some(Outcome(f.ts, trig, sweepExtreme.value, support, Abs(trig - sweepExtreme.value)));
        MoveTo(f.ts, TRIGGERED, dq);
      } else if lost {
        MoveTo(f.ts, FAILED, dq);
      } else if barsInState > cfg.armedExpiry {
        MoveTo(f.ts, EXPIRED, dq);
      }
    }
  }

  /** A machine fed a stream of bars is the run of the specification. */
  method FeedBars(support: bool, level: real, cfg: Config, bars: seq<Bar>) returns (m: LevelMachine)
    ensures m.View() == Run(cfg, support, level, bars)
  {
    hide Step;
    m := new LevelMachine(support, level, cfg);
    for i := 0 to |bars|
      invariant fresh(m) && m.support == support && m.level == level && m.cfg == cfg
      invariant m.Valid() && m.View() == Run(cfg, support, level, bars[..i])
    {
      assert bars[..i + 1][..i] == bars[..i];
      m.OnBar(bars[i]);
    }
    assert bars[..|bars|] == bars;
  }

  // ---------------------------------------------------------------- a run that triggers

  /** The study's own thresholds and timers. */
  const STUDY := Config(0.5, 2.0, 2.0, 1.0, 1.5, 1, 3, 1.0, 0.05, 20, 10, 10, 10, 10, 60)

  function Sample(ts: int, low: real, high: real, close: real): Bar {
    Bar(ts, high, low, close, Some(1.0), 100.0, 10.0, 1.0, None, Some(0.5), Some(0.5), Some(0.5), None, None, false)
  }

  /** At a support of 100: approach, touch, sweep to 99.5, absorption, flip, three closes back inside, a
      retest that holds, and the break of its high. */
  function SampleBars(): seq<Bar> {
    [Sample(1, 100.3, 100.5, 100.4), Sample(2, 100.05, 100.4, 100.1), Sample(3, 99.5, 100.1, 99.8),
     Sample(4, 99.6, 99.9, 99.8), Sample(5, 99.7, 99.9, 99.8), Sample(6, 99.8, 100.2, 100.1),
     Sample(7, 99.9, 100.3, 100.2), Sample(8, 99.9, 100.3, 100.2), Sample(9, 100.0, 100.5, 100.3),
     Sample(10, 100.1, 100.6, 100.4)]
  }

  ghost predicate Reaches(m: Machine, i: nat, state: Level, extreme: Option<real>, run: int, swing: Option<real>) {
    && m.state == state && m.sweepExtreme == extreme && m.reclaimRun == run && m.armedSwing == swing
    && m.barsInSeq == i && m.barsInState <= i
  }

  lemma NextState(i: nat)
    requires i < 10
    ensures Run(STUDY, true, 100.0, SampleBars()[..i + 1]) == Step(STUDY, true, 100.0, Run(STUDY, true, 100.0, SampleBars()[..i]), SampleBars()[i])
  {
    assert SampleBars()[..i + 1][..i] == SampleBars()[..i];
  }

  lemma SweepIsReachable()
    ensures Reaches(Run(STUDY, true, 100.0, SampleBars()[..3]), 3, SWEPT, Some(99.5), 0, None)
  {
    hide Run;
    NextState(0);
    NextState(1);
    NextState(2);
    NoBars();
    assert Reaches(Run(STUDY, true, 100.0, SampleBars()[..1]), 1, APPROACHING, None, 0, None);
    assert Reaches(Run(STUDY, true, 100.0, SampleBars()[..2]), 2, TOUCHED, None, 0, None);
  }

  lemma NoBars()
    ensures Run(STUDY, true, 100.0, SampleBars()[..0]) == Fresh
  {
  }

  lemma FlipIsReachable()
    ensures Reaches(Run(STUDY, true, 100.0, SampleBars()[..5]), 5, FLOW_FLIPPED, Some(99.5), 0, None)
  {
    hide Run;
    SweepIsReachable();
    NextState(3);
    NextState(4);
    assert Reaches(Run(STUDY, true, 100.0, SampleBars()[..4]), 4, ABSORPTION_CANDIDATE, Some(99.5), 0, None);
  }

  lemma ReclaimIsReachable()
    ensures Reaches(Run(STUDY, true, 100.0, SampleBars()[..8]), 8, RECLAIMED, Some(99.5), 3, None)
  {
    hide Run;
    FlipIsReachable();
    NextState(5);
    NextState(6);
    NextState(7);
    assert Reaches(Run(STUDY, true, 100.0, SampleBars()[..6]), 6, FLOW_FLIPPED, Some(99.5), 1, None);
    assert Reaches(Run(STUDY, true, 100.0, SampleBars()[..7]), 7, FLOW_FLIPPED, Some(99.5), 2, None);
  }

  /** With the study's own configuration both kinds of level can trigger. */
  lemma TriggerIsReachable()
    ensures Run(STUDY, true, 100.0, SampleBars()).outcome == Some(Outcome(10, 100.55, 99.5, true, 1.05))
    ensures Run(STUDY, true, 100.0, SampleBars()).state == TRIGGERED
    ensures Run(STUDY, false, -100.0, MirrorBars(SampleBars())).state == TRIGGERED
  {
    hide Run;
    ReclaimIsReachable();
    NextState(8);
    NextState(9);
    assert Reaches(Run(STUDY, true, 100.0, SampleBars()[..9]), 9, ARMED, Some(99.5), 3, Some(100.5));
    assert SampleBars()[..10] == SampleBars();
    MirrorTheorem(STUDY, true, 100.0, SampleBars());
  }
}

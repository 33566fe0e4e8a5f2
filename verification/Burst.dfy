/** The one beat that stretches. In P3 the trail flashes at F1 while the lead is
    sprayed at O, so its fan pauses for the burst: the beat loses at least the whole
    burst, and a pair's period is at least the nominal one. */
module Burst {
  import opened Model
  import opened Schedule
  import opened Timers
  import opened Guards
  import opened Machine
  import opened Moves
  import opened Pattern
  import opened Safety
  import opened Recovery
  import opened ClosedLoop
  import opened Drain
  import opened Throughput
  import Ledger
  import FL = FakeLine

  /** The simulated burst. */
  const BurstSeconds: real := 30.0

  // ------------------------------------------------------- the upstream fan

  /** The upstream fan runs only in P3, and until P4's fans are set. */
  predicate F1Quiet(s: LineState, line: FL.Line) {
    s.beat == P1 || s.beat == P2 || (s.beat == P4 && s.phase != RobotWork) ==> !line.f1Fan
  }

  /** Besides that, a beat's work has not begun before its fans have been set. */
  predicate Steady(s: LineState, line: FL.Line) {
    F1Quiet(s, line) && (s.phase == RobotWork ==> line.current.None?)
  }

  predicate NoFans(w: seq<Intent>) {
    forall i :: 0 <= i < |w| ==> !w[i].SetFan?
  }

  lemma NoFansIsStable(cfg: Config, on: bool)
    ensures Stable(cfg, (l: FL.Line) => NoFans(l.Work()) && l.f1Fan == on)
  {
    var p := (l: FL.Line) => NoFans(l.Work()) && l.f1Fan == on;
    forall line, budget | p(line) && !FL.Halts(line, budget) ensures p(FL.Change(cfg, line, budget).0) {
      if line.current.None? {
        StartedWork(cfg, line);
        StartedKeeps(cfg, line);
      } else {
        CompletedWork(line);
        assert line.Work()[0] == line.current.value;
      }
    }
    forall line, budget | p(line) ensures p(FL.Elapsed(line, budget)) {
      assert FL.Elapsed(line, budget).Work() == line.Work();
    }
  }

  /** Work without a fan intent leaves the fan alone. */
  lemma FanUntouched(cfg: Config, line: FL.Line, dt: real)
    requires NoFans(line.Work())
    ensures FL.Advance(cfg, line, dt).0.f1Fan == line.f1Fan
  {
    NoFansIsStable(cfg, line.f1Fan);
    AdvancePassesThrough(cfg, line, dt);
    StableThroughout(cfg, (l: FL.Line) => NoFans(l.Work()) && l.f1Fan == line.f1Fan, line, dt, FL.Advance(cfg, line, dt).0);
  }

  predicate AllFans(w: seq<Intent>) {
    forall i :: 0 <= i < |w| ==> w[i].SetFan?
  }

  /** Fan intents take no time, so a queue of them is done within any tick. */
  lemma {:induction false} FansDrain(cfg: Config, line: FL.Line, budget: real)
    requires AllFans(line.Work()) && budget >= 0.0 && (line.current.Some? ==> line.remaining == 0.0)
    ensures FL.Advance(cfg, line, budget).0.Work() == []
    decreases |line.queue|, line.current.Some?
  {
    if line.current.None? {
      if line.queue != [] {
        StartedWork(cfg, line);
        assert line.Work()[0].SetFan?;
        FansDrain(cfg, FL.Started(cfg, line), budget);
      }
    } else {
      CompletedWork(line);
      FansDrain(cfg, FL.Completed(line), budget);
    }
  }

  lemma RobotWorkDrains(all: seq<PartId>, cfg: Config, dt: real, c: Cell)
    requires InSync(all, cfg, c) && dt > 0.0 && c.state.phase == RobotWork && Steady(c.state, c.line)
    ensures Moved(cfg, dt, c).Work() == []
  {
    FansDrain(cfg, c.line, dt);
  }

  lemma NoFanWork(all: seq<PartId>, cfg: Config, c: Cell)
    requires InSync(all, cfg, c) && c.state.phase != RobotWork && c.state.phase != AwaitGuards
    ensures NoFans(c.line.Work())
  {
  }

  /** Where the fan stands once the line has moved. */
  lemma MovedQuiet(all: seq<PartId>, cfg: Config, dt: real, c: Cell)
    requires InSync(all, cfg, c) && dt > 0.0 && Steady(c.state, c.line)
    ensures F1Quiet(c.state, Moved(cfg, dt, c))
    ensures c.state.phase == RobotWork && c.state.beat == P4 ==> !Moved(cfg, dt, c).f1Fan
  {
    SeenState(all, cfg, dt, c);
    if c.state.phase == RobotWork {
      RobotWorkDrains(all, cfg, dt, c);
    } else if c.state.phase != AwaitGuards {
      NoFanWork(all, cfg, c);
      FanUntouched(cfg, c.line, dt);
    }
  }

  lemma DispatchSteady(all: seq<PartId>, cfg: Config, o: LineState, line: FL.Line, id: nat)
    requires Dispatchable(all, cfg, o, line) && F1Quiet(o, line)
    requires o.phase == RobotWork && o.beat == P4 ==> !line.f1Fan
    ensures
      var t := Dispatch(o, FL.Sense(line, |o.inQueue|), cfg, id).state;
      F1Quiet(t, line)
  {
    match o.phase
    case RobotWork => RobotWorkOutcome(all, cfg, o, FL.Sense(line, |o.inQueue|), id);
    case Moving => MovingShape(all, cfg, o, line, id); MovingBeat(o, FL.Sense(line, |o.inQueue|), cfg, id);
    case AwaitGuards =>
    case ShutterOpen =>
    case ShutterClose =>
    case SetFans =>
  }

  lemma MovingBeat(o: LineState, sensors: Sensors, cfg: Config, id: nat)
    requires o.phase == Moving
    ensures MovingPhase(o, sensors, cfg, id).state.beat == o.beat
  {
  }

  lemma TickSteady(all: seq<PartId>, cfg: Config, dt: real, c: Cell)
    requires InSync(all, cfg, c) && dt > 0.0 && Steady(c.state, c.line)
    ensures Steady(Tick(cfg, dt, c).state, Tick(cfg, dt, c).line)
  {
    MovedQuiet(all, cfg, dt, c);
    TickCases(all, cfg, dt, c);
    if Moved(cfg, dt, c).Work() == [] {
      DispatchSteady(all, cfg, Seen(cfg, dt, c), Moved(cfg, dt, c), c.nextId);
      IdleWork(Moved(cfg, dt, c));
    } else if c.state.phase == RobotWork {
      RobotWorkDrains(all, cfg, dt, c);
    }
  }

  // ---------------------------------------------------- the burst on the line

  /** Seconds of the burst still to come. */
  function BurstLeft(line: FL.Line): real {
    var w := line.Work();
    if |w| >= 4 then BurstSeconds
    else if |w| == 3 then (if line.current.Some? then line.remaining else BurstSeconds)
    else 0.0
  }

  /** Nothing on the line ends before it began. */
  predicate Unhurried(cfg: Config, line: FL.Line) {
    && (line.current.Some? ==> line.remaining >= 0.0)
    && (forall i :: 0 <= i < |line.queue| ==> FL.Duration(cfg, line.queue[i]) >= 0.0)
  }

  lemma StartBurst(cfg: Config, line: FL.Line)
    requires PausedTail(line.Work()) && Unhurried(cfg, line) && line.current.None? && line.queue != []
    ensures var next := FL.Started(cfg, line);
      PausedTail(next.Work()) && Unhurried(cfg, next) && BurstLeft(next) == BurstLeft(line)
  {
    StartedWork(cfg, line);
    assert line.Work()[0] == line.queue[0];
  }

  lemma FinishBurst(cfg: Config, line: FL.Line, budget: real)
    requires PausedTail(line.Work()) && Unhurried(cfg, line) && line.current.Some? && line.remaining <= budget
    ensures var next := FL.Completed(line);
      PausedTail(next.Work()) && Unhurried(cfg, next)
      && BurstLeft(next) - (budget - line.remaining) >= BurstLeft(line) - budget
  {
    CompletedWork(line);
    PausedShrinks(line.Work());
  }

  /** At least `bound` of the burst will be left when the `budget` has passed. */
  predicate Leaves(cfg: Config, bound: real, line: FL.Line, budget: real) {
    PausedTail(line.Work()) && Unhurried(cfg, line) && budget >= 0.0 && BurstLeft(line) - budget >= bound
  }

  lemma ChangeLeaves(cfg: Config, bound: real, line: FL.Line, budget: real)
    requires Leaves(cfg, bound, line, budget) && !FL.Halts(line, budget)
    ensures Leaves(cfg, bound, FL.Change(cfg, line, budget).0, FL.Change(cfg, line, budget).1)
  {
    if line.current.None? {
      StartBurst(cfg, line);
    } else {
      FinishBurst(cfg, line, budget);
    }
  }

  /** A property every change keeps holds where the line halts. */
  lemma {:induction false} AtTheHalt(cfg: Config, p: (FL.Line, real) -> bool, line: FL.Line, budget: real)
    returns (last: FL.Line, rest: real)
    requires forall l, b :: p(l, b) && !FL.Halts(l, b) ==> p(FL.Change(cfg, l, b).0, FL.Change(cfg, l, b).1)
    requires p(line, budget)
    ensures FL.Halts(last, rest) && p(last, rest) && FL.Advance(cfg, line, budget).0 == FL.Elapsed(last, rest)
    decreases |line.queue|, line.current.Some?
  {
    if FL.Halts(line, budget) {
      last, rest := line, budget;
    } else {
      var (next, left) := FL.Change(cfg, line, budget);
      last, rest := AtTheHalt(cfg, p, next, left);
    }
  }

  lemma HaltedBurst(cfg: Config, bound: real, line: FL.Line, budget: real)
    requires Leaves(cfg, bound, line, budget) && FL.Halts(line, budget)
    ensures Unhurried(cfg, FL.Elapsed(line, budget)) && BurstLeft(FL.Elapsed(line, budget)) >= bound
  {
    assert FL.Elapsed(line, budget).Work() == line.Work();
  }

  /** The line cannot get through the burst faster than time passes. */
  lemma BurstWears(cfg: Config, line: FL.Line, budget: real)
    requires PausedTail(line.Work()) && Unhurried(cfg, line) && budget >= 0.0
    ensures
      var after := FL.Advance(cfg, line, budget).0;
      Unhurried(cfg, after) && BurstLeft(after) >= BurstLeft(line) - budget
  {
    var bound := BurstLeft(line) - budget;
    forall l, b | Leaves(cfg, bound, l, b) && !FL.Halts(l, b)
      ensures Leaves(cfg, bound, FL.Change(cfg, l, b).0, FL.Change(cfg, l, b).1)
    {
      ChangeLeaves(cfg, bound, l, b);
    }
    var last, rest := AtTheHalt(cfg, (l: FL.Line, b: real) => Leaves(cfg, bound, l, b), line, budget);
    HaltedBurst(cfg, bound, last, rest);
  }

  /** The fan stays off between the intents that bracket the burst. */
  lemma PausedIsStable(cfg: Config, s: LineState)
    ensures Stable(cfg, (l: FL.Line) => PausedFits(s, l.Work(), l.f1Fan))
  {
    var p := (l: FL.Line) => PausedFits(s, l.Work(), l.f1Fan);
    forall line, budget | p(line) && !FL.Halts(line, budget) ensures p(FL.Change(cfg, line, budget).0) {
      if line.current.None? {
        StartedWork(cfg, line);
        StartedKeeps(cfg, line);
      } else {
        CompletedPaused(s, line);
      }
    }
    forall line, budget | p(line) ensures p(FL.Elapsed(line, budget)) {
      assert FL.Elapsed(line, budget).Work() == line.Work();
    }
  }

  lemma PausedThroughout(cfg: Config, s: LineState, line: FL.Line, dt: real)
    requires PausedFits(s, line.Work(), line.f1Fan)
    ensures
      var after := FL.Advance(cfg, line, dt).0;
      PausedFits(s, after.Work(), after.f1Fan)
  {
    PausedIsStable(cfg, s);
    AdvancePassesThrough(cfg, line, dt);
    StableThroughout(cfg, (l: FL.Line) => PausedFits(s, l.Work(), l.f1Fan), line, dt, FL.Advance(cfg, line, dt).0);
  }

  // ---------------------------------------------------- the stretched beat

  /** Before the burst: the upstream part has its whole flash to come, and the part
      at O its second coat. */
  predicate Untouched(s: LineState) {
    && s.PartAt(F1).Some? && s.PartAt(F1).value.coats == 1 && s.PartAt(F1).value.flash1 == 0.0
    && s.PartAt(O).Some? && s.PartAt(O).value.coats == 1
  }

  /** How a P3 beat stands, phase by phase. */
  predicate Stretching(cfg: Config, s: LineState, line: FL.Line) {
    EffBeat(s) == P3 ==>
      match s.phase
      case ShutterClose => Untouched(s)
      case SetFans => Untouched(s)
      case RobotWork => Untouched(s)
      case AwaitGuards => PausedFits(s, line.Work(), line.f1Fan) && Unhurried(cfg, line)
      case _ => true
  }

  /** A lower bound on the fan-off seconds still to come in a P3 beat. */
  function OffToGo(dt: real, s: LineState, line: FL.Line): real {
    match s.phase
    case ShutterClose => BurstSeconds + dt
    case SetFans => BurstSeconds
    case RobotWork => BurstSeconds - dt
    case AwaitGuards => if |line.Work()| >= 3 then BurstLeft(line) - dt else 0.0
    case _ => 0.0
  }

  /** One tick of a P3 beat: its fan-off seconds come off what was to come. */
  predicate Stretches(cfg: Config, dt: real, c: Cell) {
    var t := Tick(cfg, dt, c);
    if LandsNow(cfg, dt, c) then OffToGo(dt, c.state, c.line) <= 0.0
    else
      && Stretching(cfg, t.state, t.line)
      && OffToGo(dt, t.state, t.line) >= OffToGo(dt, c.state, c.line) - FanOff(cfg, dt, c)
  }

  /** What a tick shows of the upstream part. */
  lemma SeenAtF1(all: seq<PartId>, cfg: Config, dt: real, c: Cell)
    requires InSync(all, cfg, c) && dt > 0.0 && c.state.PartAt(F1).Some?
    ensures
      var p, u := c.state.PartAt(F1).value, SensedState(c.state, Moved(cfg, dt, c));
      Seen(cfg, dt, c).PartAt(F1) == Some(if u.f1Fan && p.coats != 0 then Bank(p, dt, cfg) else p)
  {
    var u := SensedState(c.state, Moved(cfg, dt, c));
    KeyedParts(all, cfg, c.state);
    FanIdsDiffer(all, cfg, c.state);
    AdvanceFlashPointwise(u, dt, cfg);
  }

  lemma SeenUntouched(all: seq<PartId>, cfg: Config, dt: real, c: Cell)
    requires InSync(all, cfg, c) && dt > 0.0 && Untouched(c.state) && !Moved(cfg, dt, c).f1Fan
    ensures Untouched(Seen(cfg, dt, c))
  {
    SeenAtF1(all, cfg, dt, c);
    OBanksNothing(all, cfg, dt, c);
  }

  /** Until P3's fans are set, nothing touches its parts and its fan is off. */
  lemma QuietTick(all: seq<PartId>, cfg: Config, dt: real, c: Cell)
    requires InSync(all, cfg, c) && dt > 0.0 && (c.state.phase == ShutterClose || c.state.phase == SetFans)
    requires c.state.beat == P2 && Steady(c.state, c.line) && Untouched(c.state)
    ensures Untouched(Seen(cfg, dt, c)) && FanOff(cfg, dt, c) == dt
    ensures Seen(cfg, dt, c).beat == P2 && Seen(cfg, dt, c).phase == c.state.phase
  {
    MovedQuiet(all, cfg, dt, c);
    SeenUntouched(all, cfg, dt, c);
  }

  lemma QuietDispatch(o: LineState, sensors: Sensors, cfg: Config, id: nat)
    requires (o.phase == ShutterClose || o.phase == SetFans) && o.beat == P2 && Untouched(o)
    ensures
      var t := Dispatch(o, sensors, cfg, id).state;
      Untouched(t) && if o.phase == ShutterClose then t.phase == SetFans && t.beat == P2 else t.phase == RobotWork && t.beat == P3
  {
  }

  /** What a tick before P3's fans are set leaves. */
  predicate QuietAfter(s: LineState, t: LineState) {
    && Untouched(t)
    && (t.phase == SetFans || t.phase == RobotWork) && EffBeat(t) == P3
    && (t.phase == RobotWork ==> s.phase == SetFans)
  }

  lemma QuietSteps(all: seq<PartId>, cfg: Config, dt: real, c: Cell)
    requires InSync(all, cfg, c) && dt > 0.0 && (c.state.phase == ShutterClose || c.state.phase == SetFans)
    requires c.state.beat == P2 && Steady(c.state, c.line) && Untouched(c.state)
    ensures FanOff(cfg, dt, c) == dt && QuietAfter(c.state, Tick(cfg, dt, c).state)
  {
    QuietTick(all, cfg, dt, c);
    TickCases(all, cfg, dt, c);
    var o, line := Seen(cfg, dt, c), Moved(cfg, dt, c);
    QuietDispatch(o, FL.Sense(line, |o.inQueue|), cfg, c.nextId);
    if c.state.phase == ShutterClose {
      IdleLineStands(all, cfg, dt, c);
    }
  }

  lemma QuietStretches(all: seq<PartId>, cfg: Config, dt: real, c: Cell)
    requires InSync(all, cfg, c) && dt > 0.0 && (c.state.phase == ShutterClose || c.state.phase == SetFans)
    requires c.state.beat == P2 && Steady(c.state, c.line) && Stretching(cfg, c.state, c.line)
    ensures Stretches(cfg, dt, c)
  {
    QuietSteps(all, cfg, dt, c);
  }

  lemma FanIsOn(s: LineState, line: FL.Line)
    requires LineFits(s, line) && s.phase == RobotWork && s.beat == P3 && line.Work() == []
    ensures !line.gunOn && line.robotClear && line.shutter == Closed && line.occupied == s.occupancy.Keys
    ensures s.PartAt(F1).Some? ==> line.f1Fan
  {
  }

  /** By the time the robot's batch is planned, the upstream part has banked one tick. */
  lemma OneTickBanked(all: seq<PartId>, cfg: Config, dt: real, c: Cell)
    requires InSync(all, cfg, c) && dt > 0.0 && c.state.phase == RobotWork && c.state.beat == P3
    requires Steady(c.state, c.line) && Untouched(c.state)
    ensures
      var o := Seen(cfg, dt, c);
      && o.PartAt(F1).Some? && o.PartAt(F1).value.coats == 1 && o.PartAt(F1).value.flash1 == dt
      && o.PartAt(O) == c.state.PartAt(O)
  {
    RobotWorkDrains(all, cfg, dt, c);
    AdvanceFits(cfg, c.state, c.line, dt);
    FanIsOn(c.state, Moved(cfg, dt, c));
    SeenAtF1(all, cfg, dt, c);
    OBanksNothing(all, cfg, dt, c);
  }

  /** The fan will pause for the burst exactly when one tick does not finish the flash. */
  lemma PausesIffLong(all: seq<PartId>, cfg: Config, dt: real, c: Cell)
    requires InSync(all, cfg, c) && dt > 0.0 && c.state.phase == RobotWork && c.state.beat == P3
    requires Steady(c.state, c.line) && Untouched(c.state) && Ledger.AllTidy(c.state, cfg)
    ensures Pausing(Seen(cfg, dt, c)) <==> cfg.flashSeconds > dt
  {
    OneTickBanked(all, cfg, dt, c);
    ObservedTidy(cfg, dt, c);
  }

  /** Over an idle line the robot's batch is launched at once. */
  lemma BatchIsPlanned(all: seq<PartId>, cfg: Config, o: LineState, line: FL.Line, id: nat)
    requires Dispatchable(all, cfg, o, line) && o.phase == RobotWork && o.beat == P3
    requires o.PartAt(O).Some? && o.PartAt(O).value.coats == 1
    ensures
      var r := RobotWorkPhase(o, FL.Sense(line, |o.inQueue|), cfg, id);
      && r.intents == WorkBatch(o, o.PartAt(O).value.partId, id)
      && r.state.phase == AwaitGuards && r.state.beat == P3 && r.state.occupancy == o.occupancy
  {
    PartAtO(all, cfg, o);
    FanIsOn(o, line);
  }

  lemma BatchTakesTime(cfg: Config, o: LineState, pid: PartId, id: nat)
    requires o.beat == P3 && cfg.cleanGunSeconds >= 0.0
    ensures forall x :: x in WorkBatch(o, pid, id) ==> FL.Duration(cfg, x) >= 0.0
  {
  }

  lemma PausedBatch(cfg: Config, t: LineState, line: FL.Line, w: seq<Intent>)
    requires Spec(t.beat).f1Fan && t.Holds(F1) && line.f1Fan && Idle(line)
    requires PausedTail(w) && |w| == 5 && forall x :: x in w ==> FL.Duration(cfg, x) >= 0.0
    ensures
      var after := line.(queue := w);
      PausedFits(t, after.Work(), after.f1Fan) && Unhurried(cfg, after) && BurstLeft(after) == BurstSeconds
      && |after.Work()| == 5
  {
    var after := line.(queue := w);
    assert after.Work() == w;
  }

  /** The next tick finds the batch under way, and the whole burst to come. */
  predicate Planned(cfg: Config, t: LineState, line: FL.Line) {
    && t.phase == AwaitGuards && t.beat == P3 && |line.Work()| == 5 && BurstLeft(line) == BurstSeconds
    && PausedFits(t, line.Work(), line.f1Fan) && Unhurried(cfg, line)
  }

  lemma WorkStretches(all: seq<PartId>, cfg: Config, dt: real, c: Cell)
    requires InSync(all, cfg, c) && dt > 0.0 && c.state.phase == RobotWork && c.state.beat == P3
    requires Steady(c.state, c.line) && Stretching(cfg, c.state, c.line) && Ledger.AllTidy(c.state, cfg)
    requires cfg.flashSeconds > dt && cfg.cleanGunSeconds >= 0.0
    ensures Stretches(cfg, dt, c)
  {
    WorkIsPlanned(all, cfg, dt, c);
    assert FanOff(cfg, dt, c) >= 0.0;
  }

  lemma WorkIsPlanned(all: seq<PartId>, cfg: Config, dt: real, c: Cell)
    requires InSync(all, cfg, c) && dt > 0.0 && c.state.phase == RobotWork && c.state.beat == P3
    requires Steady(c.state, c.line) && Untouched(c.state) && Ledger.AllTidy(c.state, cfg)
    requires cfg.flashSeconds > dt && cfg.cleanGunSeconds >= 0.0
    ensures Planned(cfg, Tick(cfg, dt, c).state, Tick(cfg, dt, c).line)
  {
    var o, line := Seen(cfg, dt, c), Moved(cfg, dt, c);
    OneTickBanked(all, cfg, dt, c);
    PausesIffLong(all, cfg, dt, c);
    RobotWorkDrains(all, cfg, dt, c);
    TickCases(all, cfg, dt, c);
    WorkPlanned(all, cfg, o, line, c.nextId);
  }

  lemma WorkPlanned(all: seq<PartId>, cfg: Config, o: LineState, line: FL.Line, id: nat)
    requires Dispatchable(all, cfg, o, line) && o.phase == RobotWork && o.beat == P3
    requires Pausing(o) && o.PartAt(O).Some? && o.PartAt(O).value.coats == 1 && cfg.cleanGunSeconds >= 0.0
    ensures
      var r := Dispatch(o, FL.Sense(line, |o.inQueue|), cfg, id);
      Planned(cfg, r.state, line.(queue := r.intents))
  {
    BatchIsPlanned(all, cfg, o, line, id);
    FanIsOn(o, line);
    BatchTail(o, o.PartAt(O).value.partId, id);
    BatchTakesTime(cfg, o, o.PartAt(O).value.partId, id);
    var r := RobotWorkPhase(o, FL.Sense(line, |o.inQueue|), cfg, id);
    PausedBatch(cfg, r.state, line, r.intents);
  }

  /** The fan is off at the end of a tick that leaves the burst running. */
  lemma BurstIsOff(cfg: Config, dt: real, c: Cell)
    requires c.state.phase == AwaitGuards && c.state.beat == P3 && dt > 0.0
    requires PausedFits(c.state, c.line.Work(), c.line.f1Fan)
    ensures FanOff(cfg, dt, c) >= 0.0
    ensures |Moved(cfg, dt, c).Work()| == 3 ==> FanOff(cfg, dt, c) == dt
    ensures PausedFits(c.state, Moved(cfg, dt, c).Work(), Moved(cfg, dt, c).f1Fan)
  {
    PausedThroughout(cfg, c.state, c.line, dt);
  }

  lemma GuardStretches(all: seq<PartId>, cfg: Config, dt: real, c: Cell)
    requires InSync(all, cfg, c) && dt > 0.0 && c.state.phase == AwaitGuards && c.state.beat == P3
    requires Stretching(cfg, c.state, c.line)
    ensures Stretches(cfg, dt, c)
  {
    BurstWears(cfg, c.line, dt);
    BurstIsOff(cfg, dt, c);
    TickCases(all, cfg, dt, c);
    WorkStays(all, cfg, dt, c);
    AdvanceShrinks(cfg, c.line, dt);
  }

  lemma WorkStays(all: seq<PartId>, cfg: Config, dt: real, c: Cell)
    requires InSync(all, cfg, c) && dt > 0.0 && c.state.phase == AwaitGuards
    ensures
      var o := Seen(cfg, dt, c);
      && o.phase == AwaitGuards && o.beat == c.state.beat && Want(o, F1) == Want(c.state, F1)
      && Dispatch(o, FL.Sense(Moved(cfg, dt, c), |o.inQueue|), cfg, c.nextId).intents == []
      && (Dispatch(o, FL.Sense(Moved(cfg, dt, c), |o.inQueue|), cfg, c.nextId).state.phase == AwaitGuards
          || Dispatch(o, FL.Sense(Moved(cfg, dt, c), |o.inQueue|), cfg, c.nextId).state.phase == ShutterOpen)
  {
  }

  lemma LateDispatch(all: seq<PartId>, cfg: Config, o: LineState, line: FL.Line, id: nat)
    requires Dispatchable(all, cfg, o, line) && Loaded(o) && !UnderWay(o)
    requires o.phase == ShutterOpen || o.phase == Moving
    ensures Dispatch(o, FL.Sense(line, |o.inQueue|), cfg, id).state.phase == Moving
  {
    if o.phase == Moving {
      WaitLeavesFan(all, cfg, o, line, id);
    }
  }

  /** Behind the departure guard the loaded beat goes straight to its landing. */
  lemma LateTick(all: seq<PartId>, cfg: Config, dt: real, c: Cell)
    requires InSync(all, cfg, c) && dt > 0.0 && Loaded(c.state)
    requires c.state.phase == ShutterOpen || c.state.phase == Moving
    ensures !LandsNow(cfg, dt, c) ==> Tick(cfg, dt, c).state.phase == ShutterOpen || Tick(cfg, dt, c).state.phase == Moving
  {
    if UnderWay(c.state) {
      UnderWayWears(all, cfg, dt, c);
    } else {
      TickCases(all, cfg, dt, c);
      StillLoaded(all, cfg, dt, c);
      SeenShape(all, cfg, dt, c);
      if Moved(cfg, dt, c).Work() == [] {
        LateDispatch(all, cfg, Seen(cfg, dt, c), Moved(cfg, dt, c), c.nextId);
      }
    }
  }

  lemma LateStretches(all: seq<PartId>, cfg: Config, dt: real, c: Cell)
    requires InSync(all, cfg, c) && dt > 0.0 && Loaded(c.state)
    requires c.state.phase == ShutterOpen || c.state.phase == Moving
    ensures Stretches(cfg, dt, c)
  {
    LateTick(all, cfg, dt, c);
    assert FanOff(cfg, dt, c) >= 0.0;
  }

  /** Every tick of a loaded P3 beat counts its fan-off seconds down. */
  lemma TickStretches(all: seq<PartId>, cfg: Config, dt: real, c: Cell)
    requires InSync(all, cfg, c) && dt > 0.0 && Loaded(c.state) && EffBeat(c.state) == P3
    requires Steady(c.state, c.line) && Stretching(cfg, c.state, c.line) && Ledger.AllTidy(c.state, cfg)
    requires cfg.flashSeconds > dt && cfg.cleanGunSeconds >= 0.0
    ensures Stretches(cfg, dt, c)
  {
    match c.state.phase
    case ShutterClose => QuietStretches(all, cfg, dt, c);
    case SetFans => QuietStretches(all, cfg, dt, c);
    case RobotWork => WorkStretches(all, cfg, dt, c);
    case AwaitGuards => GuardStretches(all, cfg, dt, c);
    case ShutterOpen => LateStretches(all, cfg, dt, c);
    case Moving => LateStretches(all, cfg, dt, c);
  }

  // ------------------------------------------------------------ whole runs

  lemma AlwaysSteady(all: seq<PartId>, cfg: Config, dt: real, cells: seq<Cell>, k: nat)
    requires IsLoop(cfg, dt, cells) && Start(all, cells[0]) && dt > 0.0 && k < |cells|
    ensures Steady(cells[k].state, cells[k].line)
  {
    var p := c => InSync(all, cfg, c) && Steady(c.state, c.line);
    StartInSync(all, cfg, cells[0]);
    forall c | p(c) ensures p(Tick(cfg, dt, c)) {
      TickKeeps(all, cfg, dt, c);
      TickSteady(all, cfg, dt, c);
    }
    LoopInvariant(cfg, dt, p, cells, k);
  }

  lemma LandsFromMoving(all: seq<PartId>, cfg: Config, dt: real, c: Cell)
    requires InSync(all, cfg, c) && dt > 0.0 && LandsNow(cfg, dt, c)
    ensures ReadyToAdvance(all, cfg, Seen(cfg, dt, c)) && Tick(cfg, dt, c).state == Advanced(Seen(cfg, dt, c))
  {
    TickCases(all, cfg, dt, c);
    SeenShape(all, cfg, dt, c);
    if Moved(cfg, dt, c).Work() == [] {
      TrainAdvances(all, cfg, Seen(cfg, dt, c), Moved(cfg, dt, c), c.nextId);
    }
  }

  lemma P3HasLead(all: seq<PartId>, cfg: Config, t: LineState)
    requires OnSchedule(all, cfg, t) && EffBeat(t) == P3 && F1 in t.occupancy
    ensures t.PartAt(F1).Some? && t.PartAt(F1).value.coats == 1
    ensures t.PartAt(O).Some? && 1 <= t.PartAt(O).value.coats <= 2
  {
    PlaceOf(all, cfg, t, F1);
    PlaceOf(all, cfg, t, O);
    var p, q := t.occupancy[F1], t.occupancy[O];
    assert PartFits(all, cfg, P3, EffPair(t), WorkDone(t), p, t.parts[p]);
    assert PartFits(all, cfg, P3, EffPair(t), WorkDone(t), q, t.parts[q]);
  }

  lemma LandingUntouched(all: seq<PartId>, cfg: Config, o: LineState)
    requires ReadyToAdvance(all, cfg, o) && FreshAtO(cfg, o) && o.beat == P2 && O in o.occupancy
    ensures Untouched(Advanced(o)) && EffBeat(Advanced(o)) == P3 && Advanced(o).beat == P2
  {
    LandingIsFresh(all, cfg, o);
    AdvancedPlaces(all, cfg, o);
    AdvanceKeepsSchedule(all, cfg, o);
    P3HasLead(all, cfg, Advanced(o));
  }

  /** The landing that ends a P2 beat with a part at O begins a P3 beat to stretch. */
  lemma LandingStretches(all: seq<PartId>, cfg: Config, dt: real, c: Cell)
    requires InSync(all, cfg, c) && dt > 0.0 && cfg.flashSeconds > 0.0 && FreshAtO(cfg, c.state)
    requires LandsNow(cfg, dt, c) && c.state.beat == P2 && O in c.state.occupancy
    ensures
      var t := Tick(cfg, dt, c);
      && t.state.phase == ShutterClose && EffBeat(t.state) == P3 && Loaded(t.state)
      && Stretching(cfg, t.state, t.line) && OffToGo(dt, t.state, t.line) == BurstSeconds + dt
  {
    SeenFresh(all, cfg, dt, c);
    LandsFromMoving(all, cfg, dt, c);
    LandingUntouched(all, cfg, Seen(cfg, dt, c));
  }

  /** A P3 beat in progress. */
  predicate InBurstBeat(cfg: Config, c: Cell) {
    EffBeat(c.state) == P3 && Loaded(c.state) && Stretching(cfg, c.state, c.line)
  }

  lemma FollowStretches(all: seq<PartId>, cfg: Config, dt: real, cells: seq<Cell>, k: nat)
    requires IsLoop(cfg, dt, cells) && Start(all, cells[0]) && dt > 0.0 && k + 1 < |cells|
    requires cfg.flashSeconds > dt && cfg.cleanGunSeconds >= 0.0 && InBurstBeat(cfg, cells[k])
    ensures LandsAt(cfg, dt, cells, k) ==> OffToGo(dt, cells[k].state, cells[k].line) <= 0.0
    ensures !LandsAt(cfg, dt, cells, k) ==>
      && InBurstBeat(cfg, cells[k + 1])
      && OffToGo(dt, cells[k + 1].state, cells[k + 1].line)
         >= OffToGo(dt, cells[k].state, cells[k].line) - FanOff(cfg, dt, cells[k])
  {
    AlwaysFresh(all, cfg, dt, cells, k);
    AlwaysSteady(all, cfg, dt, cells, k);
    TickInBurst(all, cfg, dt, cells[k]);
    assert Follows(cfg, dt, cells, k);
  }

  lemma TickInBurst(all: seq<PartId>, cfg: Config, dt: real, c: Cell)
    requires InSync(all, cfg, c) && dt > 0.0 && FreshAtO(cfg, c.state) && Steady(c.state, c.line) && InBurstBeat(cfg, c)
    requires cfg.flashSeconds > dt && cfg.cleanGunSeconds >= 0.0
    ensures LandsNow(cfg, dt, c) ==> OffToGo(dt, c.state, c.line) <= 0.0
    ensures !LandsNow(cfg, dt, c) ==>
      var t := Tick(cfg, dt, c);
      InBurstBeat(cfg, t) && OffToGo(dt, t.state, t.line) >= OffToGo(dt, c.state, c.line) - FanOff(cfg, dt, c)
  {
    TickStretches(all, cfg, dt, c);
    ToGoWears(all, cfg, dt, c);
  }

  lemma {:induction false} StillOffToGo(all: seq<PartId>, cfg: Config, dt: real, cells: seq<Cell>, i: nat, k: nat)
    requires IsLoop(cfg, dt, cells) && Start(all, cells[0]) && dt > 0.0 && i <= k < |cells|
    requires cfg.flashSeconds > dt && cfg.cleanGunSeconds >= 0.0 && InBurstBeat(cfg, cells[i])
    requires forall j :: i <= j < k ==> !LandsAt(cfg, dt, cells, j)
    ensures InBurstBeat(cfg, cells[k])
    ensures OffToGo(dt, cells[k].state, cells[k].line)
            >= OffToGo(dt, cells[i].state, cells[i].line) - OffSeconds(cfg, dt, cells, i, k)
    decreases k - i
  {
    if i < k {
      StillOffToGo(all, cfg, dt, cells, i, k - 1);
      FollowStretches(all, cfg, dt, cells, k - 1);
      assert !LandsAt(cfg, dt, cells, k - 1);
    }
  }

  lemma BurstBegins(all: seq<PartId>, cfg: Config, dt: real, cells: seq<Cell>, k: nat)
    requires IsLoop(cfg, dt, cells) && Start(all, cells[0]) && dt > 0.0 && cfg.flashSeconds > 0.0
    requires k + 1 < |cells| && LandsAt(cfg, dt, cells, k)
    requires cells[k].state.beat == P2 && O in cells[k].state.occupancy
    ensures InBurstBeat(cfg, cells[k + 1])
    ensures OffToGo(dt, cells[k + 1].state, cells[k + 1].line) == BurstSeconds + dt
  {
    AlwaysFresh(all, cfg, dt, cells, k);
    LandingStretches(all, cfg, dt, cells[k]);
    assert Follows(cfg, dt, cells, k);
  }

  /** From the landing that ends P2 with a part at O to the next landing, the fan over
      the trail is off for at least the burst and one tick more. */
  lemma P3OffAtLeastBurst(all: seq<PartId>, cfg: Config, dt: real, cells: seq<Cell>, i: nat, k: nat)
    requires IsLoop(cfg, dt, cells) && Start(all, cells[0]) && dt > 0.0
    requires cfg.flashSeconds > dt && cfg.cleanGunSeconds >= 0.0
    requires 0 < i <= k && k + 1 < |cells|
    requires LandsAt(cfg, dt, cells, i - 1) && cells[i - 1].state.beat == P2 && O in cells[i - 1].state.occupancy
    requires LandsAt(cfg, dt, cells, k) && forall j :: i <= j < k ==> !LandsAt(cfg, dt, cells, j)
    ensures OffSeconds(cfg, dt, cells, i, k) >= BurstSeconds + dt
  {
    BurstBegins(all, cfg, dt, cells, i - 1);
    StillOffToGo(all, cfg, dt, cells, i, k);
    FollowStretches(all, cfg, dt, cells, k);
  }

  // --------------------------------------- the burst takes its time anyway

  predicate SprayQueued(w: seq<Intent>) {
    exists i :: 0 <= i < |w| && w[i].SprayPart?
  }

  /** Seconds of the spray still to come, paused for or not. */
  function SprayLeft(line: FL.Line): real {
    if line.current.Some? && line.current.value.SprayPart? then line.remaining
    else if SprayQueued(line.queue) then BurstSeconds
    else 0.0
  }

  /** What is left of a work batch, of either kind. */
  predicate BatchLeft(w: seq<Intent>) {
    PlainTail(w) || PausedTail(w)
  }

  lemma BatchShrinks(w: seq<Intent>)
    requires BatchLeft(w) && w != []
    ensures BatchLeft(w[1..]) && (w[0].SprayPart? ==> !SprayQueued(w[1..]))
  {
    if PlainTail(w) {
      PlainShrinks(w);
    } else {
      PausedShrinks(w);
    }
  }

  lemma QueueSplits(w: seq<Intent>)
    requires w != []
    ensures SprayQueued(w) <==> w[0].SprayPart? || SprayQueued(w[1..])
  {
    if SprayQueued(w[1..]) {
      var i :| 0 <= i < |w[1..]| && w[1..][i].SprayPart?;
      assert w[i + 1].SprayPart?;
    }
    if SprayQueued(w) && !w[0].SprayPart? {
      var i :| 0 <= i < |w| && w[i].SprayPart?;
      assert w[1..][i - 1].SprayPart?;
    }
  }

  /** At least `bound` of the spray will be left when the `budget` has passed. */
  predicate Sprays(cfg: Config, bound: real, line: FL.Line, budget: real) {
    BatchLeft(line.Work()) && Unhurried(cfg, line) && budget >= 0.0 && SprayLeft(line) - budget >= bound
  }

  lemma StartSprays(cfg: Config, bound: real, line: FL.Line, budget: real)
    requires Sprays(cfg, bound, line, budget) && line.current.None? && line.queue != []
    ensures Sprays(cfg, bound, FL.Started(cfg, line), budget)
  {
    StartedWork(cfg, line);
    QueueSplits(line.queue);
  }

  lemma FinishSprays(cfg: Config, bound: real, line: FL.Line, budget: real)
    requires Sprays(cfg, bound, line, budget) && line.current.Some? && line.remaining <= budget
    ensures Sprays(cfg, bound, FL.Completed(line), budget - line.remaining)
  {
    CompletedWork(line);
    BatchShrinks(line.Work());
    assert line.Work()[0] == line.current.value && line.Work()[1..] == line.queue;
  }

  lemma SprayWears(cfg: Config, line: FL.Line, budget: real)
    requires BatchLeft(line.Work()) && Unhurried(cfg, line) && budget >= 0.0
    ensures
      var after := FL.Advance(cfg, line, budget).0;
      Unhurried(cfg, after) && SprayLeft(after) >= SprayLeft(line) - budget
  {
    var bound := SprayLeft(line) - budget;
    forall l, b | Sprays(cfg, bound, l, b) && !FL.Halts(l, b)
      ensures Sprays(cfg, bound, FL.Change(cfg, l, b).0, FL.Change(cfg, l, b).1)
    {
      if l.current.None? {
        StartSprays(cfg, bound, l, b);
      } else {
        FinishSprays(cfg, bound, l, b);
      }
    }
    var last, rest := AtTheHalt(cfg, (l: FL.Line, b: real) => Sprays(cfg, bound, l, b), line, budget);
  }

  /** A P3 beat whose lead still needs, or is being given, its second coat. */
  predicate Coating(cfg: Config, s: LineState, line: FL.Line) {
    EffBeat(s) == P3 &&
    match s.phase
    case ShutterClose => s.PartAt(O).Some? && s.PartAt(O).value.coats == 1
    case SetFans => s.PartAt(O).Some? && s.PartAt(O).value.coats == 1
    case RobotWork => s.PartAt(O).Some? && s.PartAt(O).value.coats == 1
    case AwaitGuards => Unhurried(cfg, line)
    case _ => true
  }

  /** A lower bound on the seconds until the landing, by the spray and the train alone. */
  function CoatToGo(cfg: Config, c: Cell): real {
    match c.state.phase
    case ShutterClose => BurstSeconds + cfg.transferSeconds
    case SetFans => BurstSeconds + cfg.transferSeconds
    case RobotWork => BurstSeconds + cfg.transferSeconds
    case AwaitGuards => SprayLeft(c.line) + cfg.transferSeconds
    case _ => if UnderWay(c.state) then ToGo(cfg, c) else cfg.transferSeconds
  }

  predicate Coats(cfg: Config, dt: real, c: Cell) {
    var t := Tick(cfg, dt, c);
    if LandsNow(cfg, dt, c) then CoatToGo(cfg, c) <= dt
    else Coating(cfg, t.state, t.line) && CoatToGo(cfg, t) >= CoatToGo(cfg, c) - dt
  }

  lemma EarlyDispatch(all: seq<PartId>, cfg: Config, o: LineState, line: FL.Line, id: nat)
    requires Dispatchable(all, cfg, o, line) && EffBeat(o) == P3 && (o.phase == ShutterClose || o.phase == SetFans)
    requires o.PartAt(O).Some? && o.PartAt(O).value.coats == 1
    ensures
      var t := Dispatch(o, FL.Sense(line, |o.inQueue|), cfg, id).state;
      && EffBeat(t) == P3 && (t.phase == SetFans || t.phase == RobotWork) && t.PartAt(O) == o.PartAt(O)
  {
  }

  lemma EarlyCoats(all: seq<PartId>, cfg: Config, dt: real, c: Cell)
    requires InSync(all, cfg, c) && dt > 0.0 && Coating(cfg, c.state, c.line)
    requires c.state.phase == ShutterClose || c.state.phase == SetFans
    ensures Coats(cfg, dt, c)
  {
    OBanksNothing(all, cfg, dt, c);
    SeenShape(all, cfg, dt, c);
    TickCases(all, cfg, dt, c);
    if Moved(cfg, dt, c).Work() == [] {
      EarlyDispatch(all, cfg, Seen(cfg, dt, c), Moved(cfg, dt, c), c.nextId);
    }
  }

  lemma BatchHasSpray(o: LineState, pid: PartId, id: nat)
    ensures SprayQueued(WorkBatch(o, pid, id))
  {
    var w := WorkBatch(o, pid, id);
    assert w[if Pausing(o) then 2 else 1].SprayPart?;
  }

  /** The tick after P3's fans are set launches the whole batch. */
  lemma BatchLaunched(all: seq<PartId>, cfg: Config, dt: real, c: Cell)
    requires InSync(all, cfg, c) && dt > 0.0 && Coating(cfg, c.state, c.line) && c.state.phase == RobotWork
    requires Steady(c.state, c.line)
    ensures
      var o, t := Seen(cfg, dt, c), Tick(cfg, dt, c);
      && o.PartAt(O).Some? && o.beat == P3 && t.state.phase == AwaitGuards && t.state.beat == P3
      && t.line.current.None? && t.line.queue == WorkBatch(o, o.PartAt(O).value.partId, c.nextId)
  {
    var o, line := Seen(cfg, dt, c), Moved(cfg, dt, c);
    OBanksNothing(all, cfg, dt, c);
    RobotWorkDrains(all, cfg, dt, c);
    TickCases(all, cfg, dt, c);
    BatchIsPlanned(all, cfg, o, line, c.nextId);
  }

  lemma WorkCoats(all: seq<PartId>, cfg: Config, dt: real, c: Cell)
    requires InSync(all, cfg, c) && dt > 0.0 && Coating(cfg, c.state, c.line) && c.state.phase == RobotWork
    requires Steady(c.state, c.line) && cfg.cleanGunSeconds >= 0.0
    ensures Coats(cfg, dt, c)
  {
    var o := Seen(cfg, dt, c);
    BatchLaunched(all, cfg, dt, c);
    BatchHasSpray(o, o.PartAt(O).value.partId, c.nextId);
    BatchTakesTime(cfg, o, o.PartAt(O).value.partId, c.nextId);
  }

  lemma WorkIsBatch(all: seq<PartId>, cfg: Config, c: Cell)
    requires InSync(all, cfg, c) && c.state.phase == AwaitGuards
    ensures BatchLeft(c.line.Work())
  {
  }

  /** From the guard phase a tick goes to itself or to the shutter, the line as it moved. */
  lemma GuardMoves(all: seq<PartId>, cfg: Config, dt: real, c: Cell)
    requires InSync(all, cfg, c) && dt > 0.0 && c.state.phase == AwaitGuards
    ensures
      var t := Tick(cfg, dt, c);
      && t.line == Moved(cfg, dt, c) && (t.state.phase == AwaitGuards || t.state.phase == ShutterOpen)
      && t.state.beat == c.state.beat
  {
    TickCases(all, cfg, dt, c);
    WorkStays(all, cfg, dt, c);
    IdleWork(Moved(cfg, dt, c));
  }

  lemma NoSprayLeft(line: FL.Line)
    ensures Idle(line) ==> SprayLeft(line) == 0.0
  {
  }

  lemma GuardCoats(all: seq<PartId>, cfg: Config, dt: real, c: Cell)
    requires InSync(all, cfg, c) && dt > 0.0 && Coating(cfg, c.state, c.line) && c.state.phase == AwaitGuards
    ensures Coats(cfg, dt, c)
  {
    WorkIsBatch(all, cfg, c);
    SprayWears(cfg, c.line, dt);
    GuardMoves(all, cfg, dt, c);
    ShutterMeansIdle(all, cfg, dt, c);
    NoSprayLeft(Moved(cfg, dt, c));
  }

  lemma ShutterMeansIdle(all: seq<PartId>, cfg: Config, dt: real, c: Cell)
    requires InSync(all, cfg, c) && dt > 0.0 && c.state.phase == AwaitGuards
    ensures Tick(cfg, dt, c).state.phase == ShutterOpen ==> Idle(Moved(cfg, dt, c))
  {
    TickCases(all, cfg, dt, c);
    SeenState(all, cfg, dt, c);
    IdleWork(Moved(cfg, dt, c));
  }

  lemma LaunchCoats(all: seq<PartId>, cfg: Config, dt: real, c: Cell)
    requires InSync(all, cfg, c) && dt > 0.0 && !UnderWay(c.state)
    ensures UnderWay(Tick(cfg, dt, c).state) ==> Tick(cfg, dt, c).line.current.None?
  {
    TickCases(all, cfg, dt, c);
    SeenShape(all, cfg, dt, c);
    IdleWork(Moved(cfg, dt, c));
  }

  lemma LateCoats(all: seq<PartId>, cfg: Config, dt: real, c: Cell)
    requires InSync(all, cfg, c) && dt > 0.0 && Coating(cfg, c.state, c.line) && Loaded(c.state)
    requires c.state.phase == ShutterOpen || c.state.phase == Moving
    ensures Coats(cfg, dt, c)
  {
    LateTick(all, cfg, dt, c);
    TickKeepsBeat(all, cfg, dt, c);
    if UnderWay(c.state) {
      UnderWayWears(all, cfg, dt, c);
    } else {
      LaunchCoats(all, cfg, dt, c);
    }
  }

  /** Every tick of a loaded P3 beat counts its coating time down by no more than itself. */
  lemma TickCoats(all: seq<PartId>, cfg: Config, dt: real, c: Cell)
    requires InSync(all, cfg, c) && dt > 0.0 && Loaded(c.state) && Coating(cfg, c.state, c.line)
    requires Steady(c.state, c.line) && cfg.cleanGunSeconds >= 0.0
    ensures Coats(cfg, dt, c)
  {
    match c.state.phase
    case ShutterClose => EarlyCoats(all, cfg, dt, c);
    case SetFans => EarlyCoats(all, cfg, dt, c);
    case RobotWork => WorkCoats(all, cfg, dt, c);
    case AwaitGuards => GuardCoats(all, cfg, dt, c);
    case ShutterOpen => LateCoats(all, cfg, dt, c);
    case Moving => LateCoats(all, cfg, dt, c);
  }

  lemma FollowCoats(all: seq<PartId>, cfg: Config, dt: real, cells: seq<Cell>, k: nat)
    requires IsLoop(cfg, dt, cells) && Start(all, cells[0]) && dt > 0.0 && k + 1 < |cells|
    requires cfg.cleanGunSeconds >= 0.0 && Loaded(cells[k].state) && Coating(cfg, cells[k].state, cells[k].line)
    ensures LandsAt(cfg, dt, cells, k) ==> CoatToGo(cfg, cells[k]) <= dt
    ensures !LandsAt(cfg, dt, cells, k) ==>
      && Loaded(cells[k + 1].state) && Coating(cfg, cells[k + 1].state, cells[k + 1].line)
      && CoatToGo(cfg, cells[k + 1]) >= CoatToGo(cfg, cells[k]) - dt
  {
    AlwaysInSync(all, cfg, dt, cells, k);
    AlwaysSteady(all, cfg, dt, cells, k);
    TickCoats(all, cfg, dt, cells[k]);
    TickKeepsBeat(all, cfg, dt, cells[k]);
    assert Follows(cfg, dt, cells, k);
  }

  lemma {:induction false} StillCoating(all: seq<PartId>, cfg: Config, dt: real, cells: seq<Cell>, i: nat, k: nat)
    requires IsLoop(cfg, dt, cells) && Start(all, cells[0]) && dt > 0.0 && i <= k < |cells|
    requires cfg.cleanGunSeconds >= 0.0 && Loaded(cells[i].state) && Coating(cfg, cells[i].state, cells[i].line)
    requires forall j :: i <= j < k ==> !LandsAt(cfg, dt, cells, j)
    ensures Loaded(cells[k].state) && Coating(cfg, cells[k].state, cells[k].line)
    ensures CoatToGo(cfg, cells[k]) >= CoatToGo(cfg, cells[i]) - Seconds(k - i, dt)
    decreases k - i
  {
    if i < k {
      StillCoating(all, cfg, dt, cells, i, k - 1);
      FollowCoats(all, cfg, dt, cells, k - 1);
      assert !LandsAt(cfg, dt, cells, k - 1);
      assert Seconds(k - i, dt) == Seconds(k - 1 - i, dt) + dt;
    }
  }

  lemma CoatingBegins(all: seq<PartId>, cfg: Config, dt: real, cells: seq<Cell>, k: nat)
    requires IsLoop(cfg, dt, cells) && Start(all, cells[0]) && dt > 0.0 && cfg.flashSeconds > 0.0
    requires k + 1 < |cells| && LandsAt(cfg, dt, cells, k)
    requires cells[k].state.beat == P2 && O in cells[k].state.occupancy
    ensures Loaded(cells[k + 1].state) && Coating(cfg, cells[k + 1].state, cells[k + 1].line)
    ensures CoatToGo(cfg, cells[k + 1]) == BurstSeconds + cfg.transferSeconds
  {
    AlwaysFresh(all, cfg, dt, cells, k);
    LandingStretches(all, cfg, dt, cells[k]);
    assert Follows(cfg, dt, cells, k);
  }

  /** Whatever the flash, a loaded P3 beat lasts the burst and the transfer. */
  lemma P3TakesBurst(all: seq<PartId>, cfg: Config, dt: real, cells: seq<Cell>, i: nat, k: nat)
    requires IsLoop(cfg, dt, cells) && Start(all, cells[0]) && dt > 0.0
    requires cfg.flashSeconds > 0.0 && cfg.cleanGunSeconds >= 0.0
    requires 0 < i <= k && k + 1 < |cells|
    requires LandsAt(cfg, dt, cells, i - 1) && cells[i - 1].state.beat == P2 && O in cells[i - 1].state.occupancy
    requires LandsAt(cfg, dt, cells, k) && forall j :: i <= j < k ==> !LandsAt(cfg, dt, cells, j)
    ensures Seconds(k + 1 - i, dt) >= BurstSeconds + cfg.transferSeconds
  {
    CoatingBegins(all, cfg, dt, cells, i - 1);
    StillCoating(all, cfg, dt, cells, i, k);
    FollowCoats(all, cfg, dt, cells, k);
    assert Seconds(k + 1 - i, dt) == Seconds(k - i, dt) + dt;
  }

  // ------------------------------------------------------------ one pair

  /** Three nominal beats, and the one that stretches by the burst. */
  function NominalPeriod(cfg: Config, burst: real): real {
    var beat := cfg.flashSeconds + cfg.transferSeconds;
    beat * 3.0 + (beat + burst)
  }

  lemma TickKeepsBeat(all: seq<PartId>, cfg: Config, dt: real, c: Cell)
    requires InSync(all, cfg, c) && dt > 0.0 && Loaded(c.state)
    ensures LandsNow(cfg, dt, c) ==> EffBeat(c.state) == c.state.beat && EffBeat(Tick(cfg, dt, c).state) == NextBeat(c.state.beat)
    ensures !LandsNow(cfg, dt, c) ==> Loaded(Tick(cfg, dt, c).state) && EffBeat(Tick(cfg, dt, c).state) == EffBeat(c.state)
  {
    ToGoWears(all, cfg, dt, c);
    if LandsNow(cfg, dt, c) {
      LandsFromMoving(all, cfg, dt, c);
      AdvancedPlaces(all, cfg, Seen(cfg, dt, c));
      SeenShape(all, cfg, dt, c);
    }
  }

  lemma FollowKeepsBeat(all: seq<PartId>, cfg: Config, dt: real, cells: seq<Cell>, k: nat)
    requires IsLoop(cfg, dt, cells) && Start(all, cells[0]) && dt > 0.0 && k + 1 < |cells| && Loaded(cells[k].state)
    ensures LandsAt(cfg, dt, cells, k) ==>
      EffBeat(cells[k].state) == cells[k].state.beat && EffBeat(cells[k + 1].state) == NextBeat(cells[k].state.beat)
    ensures !LandsAt(cfg, dt, cells, k) ==> Loaded(cells[k + 1].state) && EffBeat(cells[k + 1].state) == EffBeat(cells[k].state)
  {
    AlwaysInSync(all, cfg, dt, cells, k);
    TickKeepsBeat(all, cfg, dt, cells[k]);
    assert Follows(cfg, dt, cells, k);
  }

  lemma {:induction false} SameBeat(all: seq<PartId>, cfg: Config, dt: real, cells: seq<Cell>, i: nat, k: nat)
    requires IsLoop(cfg, dt, cells) && Start(all, cells[0]) && dt > 0.0 && i <= k < |cells|
    requires Loaded(cells[i].state) && forall j :: i <= j < k ==> !LandsAt(cfg, dt, cells, j)
    ensures Loaded(cells[k].state) && EffBeat(cells[k].state) == EffBeat(cells[i].state)
    decreases k - i
  {
    if i < k {
      SameBeat(all, cfg, dt, cells, i, k - 1);
      FollowKeepsBeat(all, cfg, dt, cells, k - 1);
      assert !LandsAt(cfg, dt, cells, k - 1);
    }
  }

  /** Consecutive loaded landings step through the four beats. */
  lemma BeatsStep(all: seq<PartId>, cfg: Config, dt: real, cells: seq<Cell>, i: nat, k: nat)
    requires IsLoop(cfg, dt, cells) && Start(all, cells[0]) && dt > 0.0 && cfg.flashSeconds > 0.0
    requires i < k && k + 1 < |cells| && LandsAt(cfg, dt, cells, i) && LandsAt(cfg, dt, cells, k)
    requires O in cells[i].state.occupancy && forall j :: i < j < k ==> !LandsAt(cfg, dt, cells, j)
    ensures cells[k].state.beat == NextBeat(cells[i].state.beat)
  {
    LandingBeat(all, cfg, dt, cells, i);
    FreshLanding(all, cfg, dt, cells, i);
    SameBeat(all, cfg, dt, cells, i + 1, k);
    FollowKeepsBeat(all, cfg, dt, cells, k);
  }

  lemma LandingBeat(all: seq<PartId>, cfg: Config, dt: real, cells: seq<Cell>, i: nat)
    requires IsLoop(cfg, dt, cells) && Start(all, cells[0]) && dt > 0.0
    requires i + 1 < |cells| && LandsAt(cfg, dt, cells, i)
    ensures EffBeat(cells[i + 1].state) == NextBeat(cells[i].state.beat)
  {
    AlwaysInSync(all, cfg, dt, cells, i);
    LandsFromMoving(all, cfg, dt, cells[i]);
    AdvancedPlaces(all, cfg, Seen(cfg, dt, cells[i]));
    SeenShape(all, cfg, dt, cells[i]);
    assert Follows(cfg, dt, cells, i);
  }

  lemma {:induction false} OffIsPositive(cfg: Config, dt: real, cells: seq<Cell>, i: nat, k: nat)
    requires i <= k <= |cells| && dt > 0.0
    ensures OffSeconds(cfg, dt, cells, i, k) >= 0.0
    decreases k - i
  {
    if i < k {
      OffIsPositive(cfg, dt, cells, i, k - 1);
    }
  }

  /** The landings at either end of a loaded beat. */
  predicate BeatBetween(cfg: Config, dt: real, cells: seq<Cell>, i: nat, k: nat) {
    && i < k && k + 1 < |cells| && LandsAt(cfg, dt, cells, i) && LandsAt(cfg, dt, cells, k)
    && O in cells[i].state.occupancy && forall j :: i < j < k ==> !LandsAt(cfg, dt, cells, j)
  }

  lemma LandingsBetween(cfg: Config, dt: real, cells: seq<Cell>, at: seq<nat>, m: nat)
    requires Landings(cfg, dt, cells, at) && m + 1 < |at|
    ensures BeatBetween(cfg, dt, cells, at[m], at[m + 1])
  {
  }

  /** How much longer than nominal a beat is sure to be: in P3 by the burst and a tick,
      or, if the flash fits one tick, by the burst less that tick. */
  function Extra(cfg: Config, dt: real): real {
    if cfg.flashSeconds > dt then BurstSeconds + dt
    else if BurstSeconds > cfg.flashSeconds then BurstSeconds - cfg.flashSeconds
    else 0.0
  }

  function ExtraOf(cfg: Config, dt: real, b: Beat): real {
    if b == P2 then Extra(cfg, dt) else 0.0
  }

  lemma NominalLasts(all: seq<PartId>, cfg: Config, dt: real, cells: seq<Cell>, i: nat, k: nat)
    requires IsLoop(cfg, dt, cells) && Start(all, cells[0]) && dt > 0.0
    requires cfg.flashSeconds > 0.0 && BeatBetween(cfg, dt, cells, i, k)
    ensures Seconds(k - i, dt) >= cfg.flashSeconds + cfg.transferSeconds + OffSeconds(cfg, dt, cells, i + 1, k)
  {
    BeatTakes(all, cfg, dt, cells, i + 1, k);
  }

  lemma P3Lasts(all: seq<PartId>, cfg: Config, dt: real, cells: seq<Cell>, i: nat, k: nat)
    requires IsLoop(cfg, dt, cells) && Start(all, cells[0]) && dt > 0.0
    requires cfg.flashSeconds > 0.0 && cfg.cleanGunSeconds >= 0.0 && BeatBetween(cfg, dt, cells, i, k)
    requires cells[i].state.beat == P2
    ensures Seconds(k - i, dt) >= BurstSeconds + cfg.transferSeconds
    ensures cfg.flashSeconds > dt ==> OffSeconds(cfg, dt, cells, i + 1, k) >= BurstSeconds + dt
  {
    P3TakesBurst(all, cfg, dt, cells, i + 1, k);
    if cfg.flashSeconds > dt {
      P3OffAtLeastBurst(all, cfg, dt, cells, i + 1, k);
    }
  }

  /** A loaded beat lasts a flash and a transfer, and in P3 the extra. */
  lemma BeatLasts(all: seq<PartId>, cfg: Config, dt: real, cells: seq<Cell>, i: nat, k: nat)
    requires IsLoop(cfg, dt, cells) && Start(all, cells[0]) && dt > 0.0
    requires cfg.flashSeconds > 0.0 && cfg.cleanGunSeconds >= 0.0 && BeatBetween(cfg, dt, cells, i, k)
    ensures Seconds(k - i, dt) >= cfg.flashSeconds + cfg.transferSeconds + ExtraOf(cfg, dt, cells[i].state.beat)
  {
    OffIsPositive(cfg, dt, cells, i + 1, k);
    NominalLasts(all, cfg, dt, cells, i, k);
    if cells[i].state.beat == P2 {
      P3Lasts(all, cfg, dt, cells, i, k);
    }
  }

  lemma NextLanding(all: seq<PartId>, cfg: Config, dt: real, cells: seq<Cell>, i: nat, k: nat)
    requires IsLoop(cfg, dt, cells) && Start(all, cells[0]) && dt > 0.0
    requires cfg.flashSeconds > 0.0 && BeatBetween(cfg, dt, cells, i, k)
    ensures cells[k].state.beat == NextBeat(cells[i].state.beat)
  {
    BeatsStep(all, cfg, dt, cells, i, k);
  }

  /** Any four beats in a row hold one P3. */
  lemma FourBeats(cfg: Config, dt: real, b0: Beat, b1: Beat, b2: Beat, b3: Beat)
    requires b1 == NextBeat(b0) && b2 == NextBeat(b1) && b3 == NextBeat(b2)
    ensures Sum([ExtraOf(cfg, dt, b0), ExtraOf(cfg, dt, b1), ExtraOf(cfg, dt, b2), ExtraOf(cfg, dt, b3)]) == Extra(cfg, dt)
  {
    FourSum([ExtraOf(cfg, dt, b0), ExtraOf(cfg, dt, b1), ExtraOf(cfg, dt, b2), ExtraOf(cfg, dt, b3)]);
  }

  lemma FourSum(off: seq<real>)
    requires |off| == 4
    ensures Sum(off) == off[0] + off[1] + off[2] + off[3]
  {
    var three, two, one := off[..3], off[..2], off[..1];
    assert three[..2] == two && two[..1] == one && one[..0] == [];
    assert Sum(one) == off[0] && Sum(two) == Sum(one) + off[1] && Sum(three) == Sum(two) + off[2];
  }

  lemma BeatFitsIn(all: seq<PartId>, cfg: Config, dt: real, cells: seq<Cell>, at: seq<nat>, m: nat, extra: seq<real>, per: real)
    requires IsLoop(cfg, dt, cells) && Start(all, cells[0]) && dt > 0.0
    requires cfg.flashSeconds > 0.0 && cfg.cleanGunSeconds >= 0.0 && per == cfg.flashSeconds + cfg.transferSeconds
    requires Landings(cfg, dt, cells, at) && |at| == |extra| + 1 && m < |extra|
    requires extra[m] == ExtraOf(cfg, dt, cells[at[m]].state.beat)
    ensures IntervalFits(at, dt, per, extra, m)
    ensures cells[at[m + 1]].state.beat == NextBeat(cells[at[m]].state.beat)
  {
    LandingsBetween(cfg, dt, cells, at, m);
    BeatLasts(all, cfg, dt, cells, at[m], at[m + 1]);
    NextLanding(all, cfg, dt, cells, at[m], at[m + 1]);
  }

  /** The beats four landings in a row leave, and the extra each brings. */
  lemma FourExtras(all: seq<PartId>, cfg: Config, dt: real, cells: seq<Cell>, at: seq<nat>, per: real) returns (extra: seq<real>)
    requires IsLoop(cfg, dt, cells) && Start(all, cells[0]) && dt > 0.0
    requires cfg.flashSeconds > 0.0 && cfg.cleanGunSeconds >= 0.0 && per == cfg.flashSeconds + cfg.transferSeconds
    requires |at| == 5 && Landings(cfg, dt, cells, at)
    ensures |extra| == 4 && Sum(extra) == Extra(cfg, dt) && forall m: nat :: m < |extra| ==> IntervalFits(at, dt, per, extra, m)
  {
    var b0, b1 := cells[at[0]].state.beat, cells[at[1]].state.beat;
    var b2, b3 := cells[at[2]].state.beat, cells[at[3]].state.beat;
    extra := [ExtraOf(cfg, dt, b0), ExtraOf(cfg, dt, b1), ExtraOf(cfg, dt, b2), ExtraOf(cfg, dt, b3)];
    BeatFitsIn(all, cfg, dt, cells, at, 0, extra, per);
    BeatFitsIn(all, cfg, dt, cells, at, 1, extra, per);
    BeatFitsIn(all, cfg, dt, cells, at, 2, extra, per);
    BeatFitsIn(all, cfg, dt, cells, at, 3, extra, per);
    FourBeats(cfg, dt, b0, b1, b2, b3);
  }

  /** A pair's period: up to one tick, four loaded beats in a row take at least the
      predicted period, burst included, for any positive flash time; and a tick more
      than that if the flash does not fit one tick. */
  lemma PeriodTakes(all: seq<PartId>, cfg: Config, dt: real, cells: seq<Cell>, at: seq<nat>)
    requires IsLoop(cfg, dt, cells) && Start(all, cells[0]) && dt > 0.0
    requires cfg.flashSeconds > 0.0 && cfg.cleanGunSeconds >= 0.0
    requires |at| == 5 && Landings(cfg, dt, cells, at)
    ensures at[0] <= at[4] && Seconds(at[4] - at[0], dt) >= NominalPeriod(cfg, BurstSeconds) - dt
    ensures cfg.flashSeconds > dt ==> Seconds(at[4] - at[0], dt) >= NominalPeriod(cfg, BurstSeconds) + dt
  {
    var per := cfg.flashSeconds + cfg.transferSeconds;
    var extra := FourExtras(all, cfg, dt, cells, at, per);
    IntervalsAddUp(at, dt, per, extra);
    FourPeriods(per);
  }

  lemma FourPeriods(per: real)
    ensures Seconds(4, per) == per + per + per + per
  {
    assert Seconds(0, per) == 0.0;
    assert Seconds(1, per) == Seconds(0, per) + per;
    assert Seconds(2, per) == Seconds(1, per) + per;
    assert Seconds(3, per) == Seconds(2, per) + per;
    assert Seconds(4, per) == Seconds(3, per) + per;
  }
}

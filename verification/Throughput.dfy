/** How long a beat must last in the closed loop: a loaded beat, landing to landing,
    takes at least the flash time, the transfer, and every second its fan was off. */
module Throughput {
  import opened Model
  import opened Schedule
  import opened Timers
  import opened Guards
  import opened Machine
  import opened Moves
  import opened Pattern
  import opened Safety
  import opened Recovery
  import opened ClosedLoop
  import opened Drain
  import Ledger
  import Runs
  import FL = FakeLine

  // ------------------------------------------------------------ time to go

  /** The part under the fan of the current beat. */
  function FanPart(s: LineState): Option<PartState> {
    s.PartAt(FanStation(EffBeat(s)))
  }

  predicate Loaded(s: LineState) {
    FanPart(s).Some?
  }

  predicate UnderWay(s: LineState) {
    s.phase == Moving && s.inFlight != []
  }

  function Owing(cfg: Config, s: LineState): real {
    if !Loaded(s) then 0.0
    else
      var owed := cfg.flashSeconds - FanPart(s).value.ActiveFlash();
      if owed < 0.0 then 0.0 else owed
  }

  /** A lower bound on the seconds until the next landing. */
  function ToGo(cfg: Config, c: Cell): real {
    if UnderWay(c.state) then (if c.line.current.Some? then c.line.remaining else cfg.transferSeconds)
    else Owing(cfg, c.state) + cfg.transferSeconds
  }

  /** Seconds of this tick that the beat's fan was off before the train left. */
  function FanOff(cfg: Config, dt: real, c: Cell): real {
    if !UnderWay(c.state) && !SensedState(c.state, Moved(cfg, dt, c)).FanOn(FanStation(EffBeat(c.state))) then dt
    else 0.0
  }

  predicate LandsNow(cfg: Config, dt: real, c: Cell) {
    UnderWay(c.state) && Tick(cfg, dt, c).state.phase == ShutterClose
  }

  // -------------------------------------------------------------- one tick

  lemma TrainWears(cfg: Config, line: FL.Line, dt: real)
    requires |line.Work()| == 1 && line.Work()[0].AdvanceTrain? && dt > 0.0
    ensures
      var after := FL.Advance(cfg, line, dt).0;
      var left := if line.current.Some? then line.remaining else cfg.transferSeconds;
      if after.Work() == [] then left <= dt else after.current.Some? && after.remaining == left - dt
  {
    if line.current.None? {
      var started := FL.Started(cfg, line);
      StartedWork(cfg, line);
      assert started.Work()[0] == line.Work()[0] && started.remaining == cfg.transferSeconds;
      assert FL.Advance(cfg, line, dt).0 == FL.Advance(cfg, started, dt).0;
      CurrentTrainWears(cfg, started, dt);
    } else {
      CurrentTrainWears(cfg, line, dt);
    }
  }

  lemma CurrentTrainWears(cfg: Config, line: FL.Line, dt: real)
    requires |line.Work()| == 1 && line.current.Some? && dt > 0.0
    ensures
      var after := FL.Advance(cfg, line, dt).0;
      if after.Work() == [] then line.remaining <= dt else after.current.Some? && after.remaining == line.remaining - dt
  {
    if !FL.Halts(line, dt) {
      CompletedWork(line);
      AdvanceShrinks(cfg, FL.Completed(line), dt - line.remaining);
    }
  }

  /** A part at a fan station gains a tick if the fan runs and nothing if it does not. */
  lemma FanGain(cfg: Config, dt: real, u: LineState, st: Station)
    requires KeyedById(u.parts) && dt > 0.0 && (st == F1 || st == F2) && u.PartAt(st).Some?
    requires st == F1 && F2 in u.occupancy ==> u.occupancy[F2] != u.occupancy[F1]
    requires st == F2 && F1 in u.occupancy ==> u.occupancy[F1] != u.occupancy[F2]
    ensures
      var o := u.(parts := AdvanceFlash(u, dt, cfg));
      && o.PartAt(st).Some?
      && o.PartAt(st).value.coats == u.PartAt(st).value.coats
      && o.PartAt(st).value.ActiveFlash() <= u.PartAt(st).value.ActiveFlash() + (if u.FanOn(st) then dt else 0.0)
  {
    AdvanceFlashPointwise(u, dt, cfg);
  }

  lemma FanIdsDiffer(all: seq<PartId>, cfg: Config, s: LineState)
    requires OnSchedule(all, cfg, s)
    ensures F1 in s.occupancy && F2 in s.occupancy ==> s.occupancy[F1] != s.occupancy[F2]
    ensures F1 in s.occupancy && O in s.occupancy ==> s.occupancy[F1] != s.occupancy[O]
    ensures O in s.occupancy && F2 in s.occupancy ==> s.occupancy[O] != s.occupancy[F2]
  {
    PlaceOf(all, cfg, s, F1);
    PlaceOf(all, cfg, s, F2);
    PlaceOf(all, cfg, s, O);
    var b, j := EffBeat(s), EffPair(s);
    if F1 in s.occupancy && F2 in s.occupancy {
      DistinctOnLine(all, cfg, s, NumberAt(b, j, F1).value, NumberAt(b, j, F2).value);
    }
    if F1 in s.occupancy && O in s.occupancy {
      DistinctOnLine(all, cfg, s, NumberAt(b, j, F1).value, NumberAt(b, j, O).value);
    }
    if O in s.occupancy && F2 in s.occupancy {
      DistinctOnLine(all, cfg, s, NumberAt(b, j, O).value, NumberAt(b, j, F2).value);
    }
  }

  /** Observing a tick: the fan's part is still there, and owes at most its fan-on share less. */
  lemma OwingWears(all: seq<PartId>, cfg: Config, dt: real, c: Cell)
    requires InSync(all, cfg, c) && dt > 0.0 && Loaded(c.state) && !UnderWay(c.state)
    ensures Loaded(Seen(cfg, dt, c)) && FanStation(EffBeat(Seen(cfg, dt, c))) == FanStation(EffBeat(c.state))
    ensures Owing(cfg, Seen(cfg, dt, c)) >= Owing(cfg, c.state) - dt + FanOff(cfg, dt, c)
  {
    var u := SensedState(c.state, Moved(cfg, dt, c));
    var st := FanStation(EffBeat(c.state));
    KeyedParts(all, cfg, c.state);
    FanIdsDiffer(all, cfg, c.state);
    FanGain(cfg, dt, u, st);
  }

  // ------------------------------------------------------------ dispatching

  /** The flash a loaded beat waits for is the one the departure guard checks. */
  lemma GuardChecksFan(all: seq<PartId>, cfg: Config, o: LineState, sensors: Sensors)
    requires OnSchedule(all, cfg, o) && !AfterMove(o) && WorkDone(o) && Loaded(o)
    requires DepartureBlocked(o, sensors, cfg, LiveMoves(o)).None?
    ensures Owing(cfg, o) == 0.0
  {
    var st := FanStation(o.beat);
    var m := FanMove(o.beat);
    DeparturePassed(o, sensors, cfg);
    LiveIs(o, m);
    PlaceOf(all, cfg, o, st);
    var pid := o.occupancy[st];
    assert PartFits(all, cfg, o.beat, o.pairIndex - 1, WorkDone(o), pid, o.parts[pid]);
  }

  /** The move that takes the beat's fan part on. */
  function FanMove(b: Beat): (m: Move)
    ensures m in TransitionMoves(b) && m.src == FanStation(b)
  {
    if b == P2 || b == P3 then TransitionMoves(b)[1] else TransitionMoves(b)[0]
  }

  lemma LoadedMoves(all: seq<PartId>, cfg: Config, o: LineState)
    requires OnSchedule(all, cfg, o) && !AfterMove(o) && Loaded(o)
    ensures LiveMoves(o) != []
  {
    LiveIs(o, FanMove(o.beat));
  }

  lemma WorkLeavesFan(all: seq<PartId>, cfg: Config, o: LineState, line: FL.Line, id: nat)
    requires Dispatchable(all, cfg, o, line) && Loaded(o) && o.phase == RobotWork
    ensures
      var t := RobotWorkPhase(o, FL.Sense(line, |o.inQueue|), cfg, id).state;
      !UnderWay(t) && EffBeat(t) == EffBeat(o) && FanPart(t) == FanPart(o)
  {
    RobotWorkOutcome(all, cfg, o, FL.Sense(line, |o.inQueue|), id);
    FanIdsDiffer(all, cfg, o);
  }

  lemma WaitLeavesFan(all: seq<PartId>, cfg: Config, o: LineState, line: FL.Line, id: nat)
    requires Dispatchable(all, cfg, o, line) && Loaded(o) && o.phase == Moving && o.inFlight == []
    ensures
      var r := MovingPhase(o, FL.Sense(line, |o.inQueue|), cfg, id);
      && EffBeat(r.state) == EffBeat(o) && FanPart(r.state) == FanPart(o)
      && (UnderWay(r.state) ==> Owing(cfg, o) == 0.0 && r.state.phase == Moving)
      && r.state.phase == Moving
  {
    LoadedMoves(all, cfg, o);
    var sensors := FL.Sense(line, |o.inQueue|);
    if DepartureBlocked(o, sensors, cfg, LiveMoves(o)).None? {
      GuardChecksFan(all, cfg, o, sensors);
    }
  }

  lemma PhaseLeavesFan(all: seq<PartId>, cfg: Config, o: LineState, line: FL.Line, id: nat)
    requires Dispatchable(all, cfg, o, line) && Loaded(o) && o.phase != RobotWork && o.phase != Moving
    ensures
      var t := Dispatch(o, FL.Sense(line, |o.inQueue|), cfg, id).state;
      !UnderWay(t) && EffBeat(t) == EffBeat(o) && FanPart(t) == FanPart(o)
  {
  }

  /** Short of a landing, a dispatch leaves the fan's part alone, and launches the
      train only when it owes nothing. */
  lemma DispatchLeavesFan(all: seq<PartId>, cfg: Config, o: LineState, line: FL.Line, id: nat)
    requires Dispatchable(all, cfg, o, line) && Loaded(o) && !UnderWay(o)
    ensures
      var t := Dispatch(o, FL.Sense(line, |o.inQueue|), cfg, id).state;
      EffBeat(t) == EffBeat(o) && FanPart(t) == FanPart(o) && (UnderWay(t) ==> Owing(cfg, o) == 0.0)
  {
    if o.phase == RobotWork {
      WorkLeavesFan(all, cfg, o, line, id);
    } else if o.phase == Moving {
      WaitLeavesFan(all, cfg, o, line, id);
    } else {
      PhaseLeavesFan(all, cfg, o, line, id);
    }
  }

  // ------------------------------------------------------------ the bound

  lemma TrainIsWork(all: seq<PartId>, cfg: Config, c: Cell)
    requires InSync(all, cfg, c) && UnderWay(c.state)
    ensures |c.line.Work()| == 1 && c.line.Work()[0].AdvanceTrain?
  {
  }

  lemma UnderWayWears(all: seq<PartId>, cfg: Config, dt: real, c: Cell)
    requires InSync(all, cfg, c) && dt > 0.0 && UnderWay(c.state)
    ensures LandsNow(cfg, dt, c) ==> ToGo(cfg, c) <= dt
    ensures !LandsNow(cfg, dt, c) ==>
      var t := Tick(cfg, dt, c);
      UnderWay(t.state) && ToGo(cfg, t) == ToGo(cfg, c) - dt && FanPart(t.state).Some? == FanPart(Seen(cfg, dt, c)).Some?
      && EffBeat(t.state) == EffBeat(c.state)
  {
    TrainIsWork(all, cfg, c);
    TrainWears(cfg, c.line, dt);
    TickCases(all, cfg, dt, c);
    if Moved(cfg, dt, c).Work() == [] {
      LandingIsSure(all, cfg, Seen(cfg, dt, c), Moved(cfg, dt, c), c.nextId);
    }
  }

  lemma LandingIsSure(all: seq<PartId>, cfg: Config, o: LineState, line: FL.Line, id: nat)
    requires Dispatchable(all, cfg, o, line) && UnderWay(o)
    ensures Dispatch(o, FL.Sense(line, |o.inQueue|), cfg, id).state.phase == ShutterClose
  {
    DispatchLaunches(all, cfg, o, line, id);
  }

  lemma StillLoaded(all: seq<PartId>, cfg: Config, dt: real, c: Cell)
    requires InSync(all, cfg, c) && dt > 0.0 && Loaded(c.state)
    ensures Loaded(Seen(cfg, dt, c))
  {
    SeenParts(all, cfg, dt, c);
  }

  /** One tick brings the next landing nearer by at most the tick, and not at all for
      the part of it the fan was off. */
  lemma ToGoWears(all: seq<PartId>, cfg: Config, dt: real, c: Cell)
    requires InSync(all, cfg, c) && dt > 0.0 && Loaded(c.state)
    ensures LandsNow(cfg, dt, c) ==> ToGo(cfg, c) <= dt && FanOff(cfg, dt, c) == 0.0
    ensures !LandsNow(cfg, dt, c) ==>
      var t := Tick(cfg, dt, c);
      Loaded(t.state) && EffBeat(t.state) == EffBeat(c.state) && ToGo(cfg, t) >= ToGo(cfg, c) - dt + FanOff(cfg, dt, c)
  {
    StillLoaded(all, cfg, dt, c);
    if UnderWay(c.state) {
      UnderWayWears(all, cfg, dt, c);
    } else {
      WaitingWears(all, cfg, dt, c);
    }
  }

  lemma WaitingWears(all: seq<PartId>, cfg: Config, dt: real, c: Cell)
    requires InSync(all, cfg, c) && dt > 0.0 && Loaded(c.state) && !UnderWay(c.state)
    ensures
      var t := Tick(cfg, dt, c);
      Loaded(t.state) && EffBeat(t.state) == EffBeat(c.state) && ToGo(cfg, t) >= ToGo(cfg, c) - dt + FanOff(cfg, dt, c)
  {
    var o, line := Seen(cfg, dt, c), Moved(cfg, dt, c);
    OwingWears(all, cfg, dt, c);
    TickCases(all, cfg, dt, c);
    if line.Work() == [] {
      DispatchLeavesFan(all, cfg, o, line, c.nextId);
      ToGoAfter(cfg, o, line, Tick(cfg, dt, c));
    } else {
      SeenShape(all, cfg, dt, c);
    }
  }

  lemma SeenShape(all: seq<PartId>, cfg: Config, dt: real, c: Cell)
    requires InSync(all, cfg, c)
    ensures var o := Seen(cfg, dt, c); EffBeat(o) == EffBeat(c.state) && UnderWay(o) == UnderWay(c.state)
  {
  }

  lemma ToGoAfter(cfg: Config, o: LineState, line: FL.Line, t: Cell)
    requires Idle(line) && t.line == line.(queue := t.line.queue)
    requires FanPart(t.state) == FanPart(o) && (UnderWay(t.state) ==> Owing(cfg, o) == 0.0) && Loaded(o)
    ensures ToGo(cfg, t) == Owing(cfg, o) + cfg.transferSeconds
  {
  }

  /** Seconds the beat's fan was off, over the ticks from i up to k. */
  function OffSeconds(cfg: Config, dt: real, cells: seq<Cell>, i: nat, k: nat): real
    requires i <= k <= |cells|
    decreases k - i
  {
    if i == k then 0.0 else OffSeconds(cfg, dt, cells, i, k - 1) + FanOff(cfg, dt, cells[k - 1])
  }

  predicate LandsAt(cfg: Config, dt: real, cells: seq<Cell>, k: nat)
    requires k < |cells|
  {
    LandsNow(cfg, dt, cells[k])
  }

  lemma FollowWears(all: seq<PartId>, cfg: Config, dt: real, cells: seq<Cell>, k: nat)
    requires IsLoop(cfg, dt, cells) && Start(all, cells[0]) && dt > 0.0 && k + 1 < |cells|
    requires Loaded(cells[k].state)
    ensures LandsAt(cfg, dt, cells, k) ==> ToGo(cfg, cells[k]) <= dt && FanOff(cfg, dt, cells[k]) == 0.0
    ensures !LandsAt(cfg, dt, cells, k) ==>
      Loaded(cells[k + 1].state) && ToGo(cfg, cells[k + 1]) >= ToGo(cfg, cells[k]) - dt + FanOff(cfg, dt, cells[k])
  {
    AlwaysInSync(all, cfg, dt, cells, k);
    ToGoWears(all, cfg, dt, cells[k]);
    assert Follows(cfg, dt, cells, k);
  }

  lemma {:induction false} StillToGo(all: seq<PartId>, cfg: Config, dt: real, cells: seq<Cell>, i: nat, k: nat)
    requires IsLoop(cfg, dt, cells) && Start(all, cells[0]) && dt > 0.0 && i <= k < |cells|
    requires Loaded(cells[i].state) && forall j :: i <= j < k ==> !LandsAt(cfg, dt, cells, j)
    ensures Loaded(cells[k].state)
    ensures ToGo(cfg, cells[k]) >= ToGo(cfg, cells[i]) - Seconds(k - i, dt) + OffSeconds(cfg, dt, cells, i, k)
    decreases k - i
  {
    if i < k {
      StillToGo(all, cfg, dt, cells, i, k - 1);
      FollowWears(all, cfg, dt, cells, k - 1);
      assert !LandsAt(cfg, dt, cells, k - 1);
      assert Seconds(k - i, dt) == Seconds(k - 1 - i, dt) + dt;
    }
  }

  /** From any loaded cell, the next landing is at least the time to go away, and all
      the time the beat's fan was off. */
  lemma LandingTakes(all: seq<PartId>, cfg: Config, dt: real, cells: seq<Cell>, i: nat, k: nat)
    requires IsLoop(cfg, dt, cells) && Start(all, cells[0]) && dt > 0.0 && i <= k && k + 1 < |cells|
    requires Loaded(cells[i].state) && forall j :: i <= j < k ==> !LandsAt(cfg, dt, cells, j)
    requires LandsAt(cfg, dt, cells, k)
    ensures Seconds(k + 1 - i, dt) >= ToGo(cfg, cells[i]) + OffSeconds(cfg, dt, cells, i, k)
  {
    StillToGo(all, cfg, dt, cells, i, k);
    FollowWears(all, cfg, dt, cells, k);
    assert Seconds(k + 1 - i, dt) == Seconds(k - i, dt) + dt;
  }

  // ------------------------------------------------- a fresh coat at each landing

  /** A part at O whose coat of this beat is on has not begun to flash it. */
  predicate FreshAtO(cfg: Config, s: LineState) {
    && Ledger.AllTidy(s, cfg)
    && (s.PartAt(O).Some? && s.PartAt(O).value.coats == Spec(EffBeat(s)).coat ==> s.PartAt(O).value.ActiveFlash() == 0.0)
  }

  lemma TickTidy(all: seq<PartId>, cfg: Config, dt: real, c: Cell)
    requires Ledger.AllTidy(c.state, cfg) && dt > 0.0 && cfg.flashSeconds > 0.0
    ensures Ledger.AllTidy(Tick(cfg, dt, c).state, cfg)
  {
    var e := TickEvent(cfg, dt, c);
    Ledger.EventKeepsTidy(cfg, c.state, e);
    assert Runs.React(cfg, c.state, e).state.parts == Tick(cfg, dt, c).state.parts;
  }

  lemma ObservedTidy(cfg: Config, dt: real, c: Cell)
    requires Ledger.AllTidy(c.state, cfg) && dt > 0.0
    ensures Ledger.AllTidy(Seen(cfg, dt, c), cfg)
  {
    var u := SensedState(c.state, Moved(cfg, dt, c));
    AdvanceFlashPointwise(u, dt, cfg);
  }

  /** No fan blows on O. */
  lemma OBanksNothing(all: seq<PartId>, cfg: Config, dt: real, c: Cell)
    requires InSync(all, cfg, c) && dt > 0.0
    ensures Seen(cfg, dt, c).PartAt(O) == c.state.PartAt(O)
    ensures EffBeat(Seen(cfg, dt, c)) == EffBeat(c.state)
  {
    var u := SensedState(c.state, Moved(cfg, dt, c));
    KeyedParts(all, cfg, c.state);
    FanIdsDiffer(all, cfg, c.state);
    AdvanceFlashPointwise(u, dt, cfg);
  }

  lemma SeenFresh(all: seq<PartId>, cfg: Config, dt: real, c: Cell)
    requires InSync(all, cfg, c) && dt > 0.0 && FreshAtO(cfg, c.state)
    ensures FreshAtO(cfg, Seen(cfg, dt, c))
  {
    ObservedTidy(cfg, dt, c);
    OBanksNothing(all, cfg, dt, c);
  }

  lemma WorkIsFresh(all: seq<PartId>, cfg: Config, o: LineState, sensors: Sensors, id: nat)
    requires OnSchedule(all, cfg, o) && o.phase == RobotWork && FreshAtO(cfg, o)
    ensures
      var t := RobotWorkPhase(o, sensors, cfg, id).state;
      t.PartAt(O).Some? && t.PartAt(O).value.coats == Spec(EffBeat(t)).coat ==> t.PartAt(O).value.ActiveFlash() == 0.0
  {
    RobotWorkOutcome(all, cfg, o, sensors, id);
    PartAtO(all, cfg, o);
    PlaceOf(all, cfg, o, O);
  }

  lemma QuietIsFresh(all: seq<PartId>, cfg: Config, o: LineState, sensors: Sensors, id: nat)
    requires o.phase != Faulted && o.phase != RobotWork && o.phase != Moving
    ensures
      var t := Dispatch(o, sensors, cfg, id).state;
      t.PartAt(O) == o.PartAt(O) && EffBeat(t) == EffBeat(o) && t.phase != ShutterClose
  {
  }

  /** With the train under way over an idle line, the move phase ends in the advance. */
  lemma TrainAdvances(all: seq<PartId>, cfg: Config, o: LineState, line: FL.Line, id: nat)
    requires Dispatchable(all, cfg, o, line) && UnderWay(o)
    ensures ReadyToAdvance(all, cfg, o) && MovingPhase(o, FL.Sense(line, |o.inQueue|), cfg, id).state == Advanced(o)
  {
    LandingIsSure(all, cfg, o, line, id);
  }

  lemma StartShape(cfg: Config, o: LineState, sensors: Sensors, id: nat)
    requires o.phase == Moving && o.inFlight == []
    ensures
      var t := MovingPhase(o, sensors, cfg, id).state;
      if LiveMoves(o) == [] then t == Advanced(o)
      else t.PartAt(O) == o.PartAt(O) && EffBeat(t) == EffBeat(o) && t.phase == Moving
  {
  }

  lemma MovingShape(all: seq<PartId>, cfg: Config, o: LineState, line: FL.Line, id: nat)
    requires Dispatchable(all, cfg, o, line) && o.phase == Moving
    ensures
      var t := MovingPhase(o, FL.Sense(line, |o.inQueue|), cfg, id).state;
      || (t.phase == ShutterClose && ReadyToAdvance(all, cfg, o) && t == Advanced(o))
      || (t.PartAt(O) == o.PartAt(O) && EffBeat(t) == EffBeat(o) && t.phase == Moving)
  {
    if UnderWay(o) {
      TrainAdvances(all, cfg, o, line, id);
    } else {
      StartShape(cfg, o, FL.Sense(line, |o.inQueue|), id);
    }
  }

  /** Where the parts of the two relevant stations come from. */
  lemma AdvancedPlaces(all: seq<PartId>, cfg: Config, o: LineState)
    requires ReadyToAdvance(all, cfg, o)
    ensures O in o.occupancy ==> At(Advanced(o).occupancy, FanStation(NextBeat(o.beat))) == At(o.occupancy, O)
    ensures
      var feeder := if o.beat == P2 then F2 else F1;
      At(Advanced(o).occupancy, O) == At(o.occupancy, feeder)
    ensures EffBeat(Advanced(o)) == NextBeat(o.beat)
  {
    ScheduledIdsNamed(all, cfg, o);
    AdvanceIsShift(o);
    ShiftedPair(o.beat, LayoutOf(o), LayoutOf(Advanced(o)));
    assert LayoutOf(Advanced(o)).occupancy == Advanced(o).occupancy && LayoutOf(o).occupancy == o.occupancy;
  }

  lemma ShiftedPair(b: Beat, l: Layout, r: Layout)
    requires BeatShift(b, l, r)
    ensures O in l.occupancy ==> At(r.occupancy, FanStation(NextBeat(b))) == At(l.occupancy, O)
    ensures At(r.occupancy, O) == At(l.occupancy, if b == P2 then F2 else F1)
  {
    assert At(r.occupancy, O) == LandsOn(b, l, O);
    assert At(r.occupancy, FanStation(NextBeat(b))) == LandsOn(b, l, FanStation(NextBeat(b)));
  }

  lemma FeederCoats(all: seq<PartId>, cfg: Config, o: LineState)
    requires ReadyToAdvance(all, cfg, o)
    ensures
      var feeder := if o.beat == P2 then F2 else F1;
      feeder in o.occupancy ==> o.occupancy[feeder] in o.parts && o.parts[o.occupancy[feeder]].coats < Spec(NextBeat(o.beat)).coat
  {
    var feeder := if o.beat == P2 then F2 else F1;
    PlaceOf(all, cfg, o, feeder);
    if feeder in o.occupancy {
      var pid := o.occupancy[feeder];
      assert PartFits(all, cfg, o.beat, o.pairIndex - 1, WorkDone(o), pid, o.parts[pid]);
    }
  }

  lemma CoatedAtO(all: seq<PartId>, cfg: Config, o: LineState)
    requires ReadyToAdvance(all, cfg, o) && O in o.occupancy
    ensures o.PartAt(O).Some? && o.PartAt(O).value.coats == Spec(o.beat).coat
  {
    PlaceOf(all, cfg, o, O);
    var pid := o.occupancy[O];
    assert PartFits(all, cfg, o.beat, o.pairIndex - 1, WorkDone(o), pid, o.parts[pid]);
  }

  lemma OStaysOnRecord(all: seq<PartId>, cfg: Config, o: LineState)
    requires ReadyToAdvance(all, cfg, o) && O in o.occupancy
    ensures
      var pid := o.occupancy[O];
      pid in o.parts && pid in Advanced(o).parts && Advanced(o).parts[pid] == o.parts[pid]
  {
    ScheduledIdsNamed(all, cfg, o);
    AdvanceIsShift(o);
    FanIdsDiffer(all, cfg, o);
    PlaceOf(all, cfg, o, O);
    assert LayoutOf(Advanced(o)).parts == Advanced(o).parts;
  }

  /** A landing puts the part just coated under the fan with its flash still to come,
      and a part short of this beat's coat in front of the robot. */
  lemma LandingIsFresh(all: seq<PartId>, cfg: Config, o: LineState)
    requires ReadyToAdvance(all, cfg, o) && FreshAtO(cfg, o)
    ensures
      var t := Advanced(o);
      && (t.PartAt(O).Some? ==> t.PartAt(O).value.coats != Spec(EffBeat(t)).coat)
      && (O in o.occupancy ==> FanPart(t).Some? && FanPart(t).value.ActiveFlash() == 0.0)
  {
    AdvancedPlaces(all, cfg, o);
    FeederCoats(all, cfg, o);
    RemovedOnly(o);
    if O in o.occupancy {
      CoatedAtO(all, cfg, o);
      OStaysOnRecord(all, cfg, o);
      ScheduledIdsNamed(all, cfg, o);
    }
  }

  lemma RemovedOnly(o: LineState)
    ensures forall pid :: pid in Advanced(o).parts ==> pid in o.parts && Advanced(o).parts[pid] == o.parts[pid]
  {
    Ledger.ApplyOnlyRemoves(LayoutOf(o), LiveMoves(o));
  }

  lemma DispatchFresh(all: seq<PartId>, cfg: Config, o: LineState, line: FL.Line, id: nat)
    requires Dispatchable(all, cfg, o, line) && FreshAtO(cfg, o)
    ensures
      var t := Dispatch(o, FL.Sense(line, |o.inQueue|), cfg, id).state;
      && (t.PartAt(O).Some? && t.PartAt(O).value.coats == Spec(EffBeat(t)).coat ==> t.PartAt(O).value.ActiveFlash() == 0.0)
      && (t.phase == ShutterClose ==> o.phase == Moving)
      && (t.phase == ShutterClose && O in o.occupancy ==> FanPart(t).Some? && FanPart(t).value.ActiveFlash() == 0.0)
  {
    var sensors := FL.Sense(line, |o.inQueue|);
    if o.phase == RobotWork {
      WorkIsFresh(all, cfg, o, sensors, id);
      RobotWorkOutcome(all, cfg, o, sensors, id);
    } else if o.phase == Moving {
      MovingFresh(all, cfg, o, line, id);
    } else {
      QuietIsFresh(all, cfg, o, sensors, id);
    }
  }

  lemma MovingFresh(all: seq<PartId>, cfg: Config, o: LineState, line: FL.Line, id: nat)
    requires Dispatchable(all, cfg, o, line) && FreshAtO(cfg, o) && o.phase == Moving
    ensures
      var t := MovingPhase(o, FL.Sense(line, |o.inQueue|), cfg, id).state;
      && (t.PartAt(O).Some? && t.PartAt(O).value.coats == Spec(EffBeat(t)).coat ==> t.PartAt(O).value.ActiveFlash() == 0.0)
      && (t.phase == ShutterClose ==> O in o.occupancy ==> FanPart(t).Some? && FanPart(t).value.ActiveFlash() == 0.0)
  {
    MovingShape(all, cfg, o, line, id);
    if ReadyToAdvance(all, cfg, o) {
      LandingIsFresh(all, cfg, o);
    }
  }

  lemma TickFresh(all: seq<PartId>, cfg: Config, dt: real, c: Cell)
    requires InSync(all, cfg, c) && dt > 0.0 && cfg.flashSeconds > 0.0 && FreshAtO(cfg, c.state)
    ensures FreshAtO(cfg, Tick(cfg, dt, c).state)
    ensures LandsNow(cfg, dt, c) && O in c.state.occupancy ==>
      var t := Tick(cfg, dt, c).state;
      FanPart(t).Some? && FanPart(t).value.ActiveFlash() == 0.0
  {
    SeenFresh(all, cfg, dt, c);
    TickTidy(all, cfg, dt, c);
    TickCases(all, cfg, dt, c);
    if Moved(cfg, dt, c).Work() == [] {
      DispatchFresh(all, cfg, Seen(cfg, dt, c), Moved(cfg, dt, c), c.nextId);
    }
  }

  lemma StartFresh(all: seq<PartId>, cfg: Config, s: LineState)
    requires Declared(all, s) && cfg.flashSeconds > 0.0
    ensures FreshAtO(cfg, s)
  {
  }

  lemma AlwaysFresh(all: seq<PartId>, cfg: Config, dt: real, cells: seq<Cell>, k: nat)
    requires IsLoop(cfg, dt, cells) && Start(all, cells[0]) && dt > 0.0 && cfg.flashSeconds > 0.0 && k < |cells|
    ensures InSync(all, cfg, cells[k]) && FreshAtO(cfg, cells[k].state)
  {
    var p := c => InSync(all, cfg, c) && FreshAtO(cfg, c.state);
    StartInSync(all, cfg, cells[0]);
    StartFresh(all, cfg, cells[0].state);
    forall c | p(c) ensures p(Tick(cfg, dt, c)) {
      TickKeeps(all, cfg, dt, c);
      TickFresh(all, cfg, dt, c);
    }
    LoopInvariant(cfg, dt, p, cells, k);
  }

  lemma LandedToGo(cfg: Config, c: Cell)
    requires FanPart(c.state).Some? && FanPart(c.state).value.ActiveFlash() == 0.0
    requires c.state.phase == ShutterClose && cfg.flashSeconds > 0.0
    ensures Loaded(c.state) && ToGo(cfg, c) == cfg.flashSeconds + cfg.transferSeconds
  {
  }

  lemma FreshLanding(all: seq<PartId>, cfg: Config, dt: real, cells: seq<Cell>, k: nat)
    requires IsLoop(cfg, dt, cells) && Start(all, cells[0]) && dt > 0.0 && cfg.flashSeconds > 0.0
    requires k + 1 < |cells| && LandsAt(cfg, dt, cells, k) && O in cells[k].state.occupancy
    ensures Loaded(cells[k + 1].state) && ToGo(cfg, cells[k + 1]) == cfg.flashSeconds + cfg.transferSeconds
  {
    AlwaysFresh(all, cfg, dt, cells, k);
    assert Follows(cfg, dt, cells, k);
    LandedFollows(all, cfg, dt, cells, k);
  }

  lemma LandedFollows(all: seq<PartId>, cfg: Config, dt: real, cells: seq<Cell>, k: nat)
    requires k + 1 < |cells| && Follows(cfg, dt, cells, k) && dt > 0.0 && cfg.flashSeconds > 0.0
    requires InSync(all, cfg, cells[k]) && FreshAtO(cfg, cells[k].state)
    requires LandsAt(cfg, dt, cells, k) && O in cells[k].state.occupancy
    ensures Loaded(cells[k + 1].state) && ToGo(cfg, cells[k + 1]) == cfg.flashSeconds + cfg.transferSeconds
  {
    LandedTick(all, cfg, dt, cells[k]);
  }

  lemma LandedTick(all: seq<PartId>, cfg: Config, dt: real, c: Cell)
    requires InSync(all, cfg, c) && dt > 0.0 && cfg.flashSeconds > 0.0 && FreshAtO(cfg, c.state)
    requires LandsNow(cfg, dt, c) && O in c.state.occupancy
    ensures Loaded(Tick(cfg, dt, c).state) && ToGo(cfg, Tick(cfg, dt, c)) == cfg.flashSeconds + cfg.transferSeconds
  {
    TickFresh(all, cfg, dt, c);
    LandedToGo(cfg, Tick(cfg, dt, c));
  }

  /** The length of a loaded beat: from the landing that brought a coated part off O
      under its fan, the next landing is at least a whole flash and a transfer away,
      and every second that fan was off besides. No tick size or duration shortens it. */
  lemma BeatTakes(all: seq<PartId>, cfg: Config, dt: real, cells: seq<Cell>, i: nat, k: nat)
    requires IsLoop(cfg, dt, cells) && Start(all, cells[0]) && dt > 0.0 && cfg.flashSeconds > 0.0
    requires 0 < i <= k && k + 1 < |cells|
    requires LandsAt(cfg, dt, cells, i - 1) && O in cells[i - 1].state.occupancy
    requires LandsAt(cfg, dt, cells, k) && forall j :: i <= j < k ==> !LandsAt(cfg, dt, cells, j)
    ensures Seconds(k + 1 - i, dt) >= cfg.flashSeconds + cfg.transferSeconds + OffSeconds(cfg, dt, cells, i, k)
  {
    FreshLanding(all, cfg, dt, cells, i - 1);
    LandingTakes(all, cfg, dt, cells, i, k);
  }

  /** Consecutive landings, each taking a part off O but possibly the last. */
  predicate Landings(cfg: Config, dt: real, cells: seq<Cell>, at: seq<nat>) {
    && (forall m :: 0 <= m < |at| ==> at[m] + 1 < |cells| && LandsAt(cfg, dt, cells, at[m]))
    && (forall m :: 0 <= m < |at| - 1 ==>
         && at[m] < at[m + 1] && O in cells[at[m]].state.occupancy
         && (forall j :: at[m] < j < at[m + 1] ==> !LandsAt(cfg, dt, cells, j)))
  }

  function Sum(xs: seq<real>): real {
    if xs == [] then 0.0 else Sum(xs[..|xs| - 1]) + xs[|xs| - 1]
  }

  lemma {:induction false} SecondsAdd(a: nat, b: nat, dt: real)
    ensures Seconds(a + b, dt) == Seconds(a, dt) + Seconds(b, dt)
  {
    if b > 0 {
      SecondsAdd(a, b - 1, dt);
    }
  }

  /** The m-th interval is long enough. */
  predicate IntervalFits(at: seq<nat>, dt: real, per: real, off: seq<real>, m: nat)
    requires |at| == |off| + 1 && m < |off|
  {
    at[m] <= at[m + 1] && Seconds(at[m + 1] - at[m], dt) >= per + off[m]
  }

  /** Intervals that are each long enough add up. */
  lemma {:induction false} IntervalsAddUp(at: seq<nat>, dt: real, per: real, off: seq<real>)
    requires |at| == |off| + 1 && forall m: nat :: m < |off| ==> IntervalFits(at, dt, per, off, m)
    ensures at[0] <= at[|off|] && Seconds(at[|off|] - at[0], dt) >= Seconds(|off|, per) + Sum(off)
  {
    if off != [] {
      var n := |off| - 1;
      var first, less := at[..|at| - 1], off[..n];
      forall m: nat | m < n ensures IntervalFits(first, dt, per, less, m) {
        assert IntervalFits(at, dt, per, off, m);
      }
      IntervalsAddUp(first, dt, per, less);
      assert IntervalFits(at, dt, per, off, n);
      SecondsAdd(at[n] - at[0], at[n + 1] - at[n], dt);
    }
  }

  /** Fan-off seconds of the beat between the m-th landing and the next. */
  predicate OffAt(cfg: Config, dt: real, cells: seq<Cell>, at: seq<nat>, off: seq<real>, m: nat)
    requires |at| == |off| + 1 && m < |off|
  {
    at[m] < at[m + 1] < |cells| && off[m] == OffSeconds(cfg, dt, cells, at[m] + 1, at[m + 1])
  }

  lemma OneBeat(all: seq<PartId>, cfg: Config, dt: real, cells: seq<Cell>, at: seq<nat>, off: seq<real>, m: nat,
                per: real)
    requires per == cfg.flashSeconds + cfg.transferSeconds
    requires IsLoop(cfg, dt, cells) && Start(all, cells[0]) && dt > 0.0 && cfg.flashSeconds > 0.0
    requires Landings(cfg, dt, cells, at) && |at| == |off| + 1 && m < |off| && OffAt(cfg, dt, cells, at, off, m)
    ensures IntervalFits(at, dt, per, off, m)
  {
    BeatTakes(all, cfg, dt, cells, at[m] + 1, at[m + 1]);
  }

  /** The throughput bound: n loaded beats in a row take at least n flashes and n
      transfers and all the time their fans were off; four of them are one pair's
      period. */
  lemma BeatsTake(all: seq<PartId>, cfg: Config, dt: real, cells: seq<Cell>, at: seq<nat>, off: seq<real>)
    requires IsLoop(cfg, dt, cells) && Start(all, cells[0]) && dt > 0.0 && cfg.flashSeconds > 0.0
    requires Landings(cfg, dt, cells, at) && |at| == |off| + 1
    requires forall m: nat :: m < |off| ==> OffAt(cfg, dt, cells, at, off, m)
    ensures at[0] <= at[|off|]
    ensures Seconds(at[|off|] - at[0], dt) >= Seconds(|off|, cfg.flashSeconds + cfg.transferSeconds) + Sum(off)
  {
    var per := cfg.flashSeconds + cfg.transferSeconds;
    forall m: nat | m < |off| ensures IntervalFits(at, dt, per, off, m) {
      OneBeat(all, cfg, dt, cells, at, off, m, per);
    }
    IntervalsAddUp(at, dt, per, off);
  }
}

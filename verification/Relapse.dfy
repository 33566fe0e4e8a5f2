/** Where recovery's guarantee stops. An operator who confirms the moved picture too
    early and then confirms it again sends the machine back to the guard of a move it
    has already made. The departure guard is then all that holds the lead, one coat
    on, and it holds it for one flash and no longer. */
module Relapse {
  import opened Model
  import opened Schedule
  import opened Timers
  import opened Guards
  import opened Machine
  import opened Moves
  import opened Pattern
  import opened Safety
  import opened Recovery
  import opened Runs
  import Drain

  /** About to move the train a second time: the lead at F2 with one coat, the trail
      at O, nothing behind them. */
  predicate Doomed(s: LineState, pid: PartId) {
    && s.beat == P1 && s.fault.None? && s.faultPhase.None? && KeyedById(s.parts)
    && At(s.occupancy, F2) == Some(pid) && s.Holds(F2) && s.Holds(O) && s.occupancy[O] != pid && F1 !in s.occupancy
    && pid in s.parts && s.parts[pid].coats == 1
  }

  predicate AtGuard(s: LineState, pid: PartId) {
    Doomed(s, pid) && s.phase == AwaitGuards && s.inFlight == []
  }

  lemma DoomedMoves(s: LineState, pid: PartId)
    requires Doomed(s, pid)
    ensures LiveMoves(s) == [Move(F2, OUT), Move(O, F2)]
  {
    var moves := TransitionMoves(P1);
    assert Filter(s, moves[3..]) == [];
    assert Filter(s, moves[2..]) == Filter(s, moves[3..]);
    assert Filter(s, moves[1..]) == [Move(O, F2)] + Filter(s, moves[2..]);
    assert Filter(s, moves) == [Move(F2, OUT)] + Filter(s, moves[1..]);
  }

  predicate LineClear(sensors: Sensors) {
    sensors.robotClear && !sensors.gunOn && !sensors.outEye
  }

  lemma WalkOut(s: LineState, pid: PartId, cfg: Config, occupied: set<Station>)
    requires Doomed(s, pid)
    ensures WalkBlocked(s, cfg, [Move(F2, OUT), Move(O, F2)], occupied).None? <==> s.parts[pid].flash1 >= cfg.flashSeconds
  {
    var second := [Move(O, F2)];
    assert [Move(F2, OUT), Move(O, F2)][1..] == second && second[1..] == [];
    assert WalkBlocked(s, cfg, second, occupied - {F2}).None?;
  }

  /** What the departure guard still asks: a clear line, and one flash. */
  lemma GuardStopsIffShort(s: LineState, pid: PartId, sensors: Sensors, cfg: Config)
    requires Doomed(s, pid)
    ensures DepartureBlocked(s, sensors, cfg, LiveMoves(s)).None?
      <==> LineClear(sensors) && s.parts[pid].flash1 >= cfg.flashSeconds
  {
    DoomedMoves(s, pid);
    WalkOut(s, pid, cfg, sensors.occupied);
  }

  // ------------------------------------------------------------ ticks

  /** Nothing wrong is reported: no fault, and eyes that agree with the map wherever
      the machine compares them. */
  predicate Agrees(s: LineState, inputs: Inputs) {
    && inputs.fault.None? && inputs.dt >= 0.0
    && (s.phase != Moving ==> OccupancyMismatch(s, inputs.sensors).None?)
  }

  predicate AllDone(s: LineState, inputs: Inputs) {
    forall id :: id in s.pending ==> id in inputs.completed
  }

  lemma {:induction false} NothingRemains(pending: seq<nat>, completed: set<nat>)
    requires forall id :: id in pending ==> id in completed
    ensures Remaining(pending, completed) == []
  {
    if pending != [] {
      NothingRemains(pending[1..], completed);
    }
  }

  /** The lead banks under a running fan, and nothing else about it changes. */
  lemma LeadBanks(cfg: Config, s: LineState, pid: PartId, dt: real)
    requires Doomed(s, pid)
    ensures
      var t := s.(parts := AdvanceFlash(s, dt, cfg));
      Doomed(t, pid) && t.parts[pid].flash1 == s.parts[pid].flash1 + if s.f2Fan then dt else 0.0
  {
    AdvanceFlashPointwise(s, dt, cfg);
  }

  lemma DoomedDepends(s: LineState, t: LineState, pid: PartId)
    requires Doomed(s, pid)
    requires t.beat == s.beat && t.fault == s.fault && t.faultPhase == s.faultPhase
    requires t.parts == s.parts && t.occupancy == s.occupancy
    ensures Doomed(t, pid)
  {
  }

  lemma SameMismatch(s: LineState, t: LineState, sensors: Sensors)
    requires s.occupancy == t.occupancy
    ensures OccupancyMismatch(s, sensors) == OccupancyMismatch(t, sensors)
  {
  }

  /** With its work done, an agreeing tick dispatches what it has observed. */
  lemma TickDispatches(cfg: Config, s: LineState, pid: PartId, f1: bool, f2: bool, inputs: Inputs, id: nat)
    requires Doomed(s, pid) && s.phase != Faulted && Agrees(s, inputs) && AllDone(s, inputs)
    ensures
      var o := Observed(Sensed(s, f1, f2), inputs, cfg);
      && Doomed(o, pid) && o.phase == s.phase && o.inFlight == s.inFlight && o.pending == []
      && o.parts[pid].flash1 == s.parts[pid].flash1 + (if f2 then inputs.dt else 0.0)
      && React(cfg, s, Tick(f1, f2, inputs, id)).state
         == Dispatch(o, inputs.sensors, cfg, id).state.(sprayBurstActive := inputs.sensors.gunOn)
  {
    var u := Sensed(s, f1, f2);
    var o := Observed(u, inputs, cfg);
    NothingRemains(s.pending, inputs.completed);
    DoomedDepends(s, u, pid);
    LeadBanks(cfg, u, pid, inputs.dt);
    DoomedDepends(u.(parts := AdvanceFlash(u, inputs.dt, cfg)), o, pid);
    SameMismatch(s, o, inputs.sensors);
  }

  /** At the guard: an agreeing tick lets the lead go exactly when the line is clear
      and the flash, with this tick's share if F2's fan is on, is complete. Otherwise
      the machine stands where it was. */
  lemma GuardTick(cfg: Config, s: LineState, pid: PartId, f1: bool, f2: bool, inputs: Inputs, id: nat)
    requires AtGuard(s, pid) && Agrees(s, inputs) && AllDone(s, inputs)
    ensures
      var t := React(cfg, s, Tick(f1, f2, inputs, id)).state;
      && Doomed(t, pid) && t.inFlight == [] && t.pending == []
      && t.parts[pid].flash1 == s.parts[pid].flash1 + (if f2 then inputs.dt else 0.0)
      && t.phase == if LineClear(inputs.sensors) && t.parts[pid].flash1 >= cfg.flashSeconds then ShutterOpen else AwaitGuards
  {
    TickDispatches(cfg, s, pid, f1, f2, inputs, id);
    GuardStopsIffShort(Observed(Sensed(s, f1, f2), inputs, cfg), pid, inputs.sensors, cfg);
  }

  // ---------------------------------------------------- the way off the line

  /** What the eyes show of a line that does as it is told. */
  function Shown(s: LineState): set<Station> {
    (if s.phase == Moving && s.inFlight != [] then Shifted(s, s.inFlight) else s).occupancy.Keys
  }

  /** An ordinary tick: F2's fan on, the line clear, the outstanding work done. */
  function Ordinary(s: LineState, dt: real, id: nat): Event {
    var shutter := if s.phase == Moving then Open else Closed;
    Tick(false, true, Inputs(dt, Sensors(Shown(s), shutter, false, true, true, false, false, false),
                             (set x | x in s.pending), None), id)
  }

  /** The controller after n ordinary ticks. */
  function Carry(cfg: Config, s: LineState, id: nat, dt: real, n: nat): LineState
    decreases n
  {
    if n == 0 then s
    else
      var r := React(cfg, s, Ordinary(s, dt, id));
      Carry(cfg, r.state, r.nextId, dt, n - 1)
  }

  /** The n-th of those ticks takes the part off the line with one coat on it. */
  predicate LeavesAt(cfg: Config, s: LineState, id: nat, dt: real, n: nat, pid: PartId) {
    && pid in Carry(cfg, s, id, dt, n).parts && Carry(cfg, s, id, dt, n).parts[pid].coats == 1
    && pid !in Carry(cfg, s, id, dt, n + 1).parts
  }

  lemma OneTickOn(cfg: Config, s: LineState, id: nat, dt: real, n: nat, pid: PartId)
    requires
      var r := React(cfg, s, Ordinary(s, dt, id));
      LeavesAt(cfg, r.state, r.nextId, dt, n, pid)
    ensures LeavesAt(cfg, s, id, dt, n + 1, pid)
  {
  }

  lemma OrdinaryAgrees(s: LineState, dt: real, id: nat)
    requires dt >= 0.0
    ensures Agrees(s, Ordinary(s, dt, id).inputs) && AllDone(s, Ordinary(s, dt, id).inputs)
    ensures LineClear(Ordinary(s, dt, id).inputs.sensors)
  {
  }

  /** Off to move a second time, its flash complete. */
  predicate Leaving(cfg: Config, s: LineState, pid: PartId) {
    Doomed(s, pid) && s.parts[pid].flash1 >= cfg.flashSeconds
  }

  lemma ShutterTick(cfg: Config, s: LineState, pid: PartId, dt: real, id: nat)
    requires Leaving(cfg, s, pid) && s.phase == ShutterOpen && s.inFlight == [] && dt >= 0.0
    ensures
      var t := React(cfg, s, Ordinary(s, dt, id)).state;
      Leaving(cfg, t, pid) && t.phase == Moving && t.inFlight == []
  {
    var inputs := Ordinary(s, dt, id).inputs;
    OrdinaryAgrees(s, dt, id);
    TickDispatches(cfg, s, pid, false, true, inputs, id);
    DoomedDepends(Observed(Sensed(s, false, true), inputs, cfg), React(cfg, s, Ordinary(s, dt, id)).state, pid);
  }

  lemma DepartTick(cfg: Config, s: LineState, pid: PartId, dt: real, id: nat)
    requires Leaving(cfg, s, pid) && s.phase == Moving && s.inFlight == [] && dt >= 0.0
    ensures
      var t := React(cfg, s, Ordinary(s, dt, id)).state;
      Leaving(cfg, t, pid) && t.phase == Moving && t.inFlight == [Move(F2, OUT), Move(O, F2)]
  {
    var inputs := Ordinary(s, dt, id).inputs;
    var o := Observed(Sensed(s, false, true), inputs, cfg);
    OrdinaryAgrees(s, dt, id);
    TickDispatches(cfg, s, pid, false, true, inputs, id);
    DoomedMoves(o, pid);
    GuardStopsIffShort(o, pid, inputs.sensors, cfg);
    DoomedDepends(o, React(cfg, s, Ordinary(s, dt, id)).state, pid);
  }

  /** The second move itself. */
  lemma SecondMove(s: LineState, pid: PartId)
    requires Doomed(s, pid) && s.inFlight == [Move(F2, OUT), Move(O, F2)]
    ensures pid !in Shifted(s, s.inFlight).parts
    ensures F2 in Shifted(s, s.inFlight).occupancy && Arrivals(s.inFlight) == {F2}
  {
    var l, second := LayoutOf(s), [Move(O, F2)];
    assert s.inFlight[1..] == second && second[1..] == [];
    assert s.inFlight[0] == Move(F2, OUT);
    var left := ApplyMove(l, s.inFlight[0]);
    assert left.parts == l.parts - {pid} && left.occupancy == l.occupancy - {F2};
    assert ApplyMoves(left, second) == ApplyMove(left, Move(O, F2));
    assert Move(O, F2) in s.inFlight && Move(F2, OUT) in s.inFlight;
  }

  lemma SecondArrival(o: LineState, pid: PartId, sensors: Sensors, cfg: Config, id: nat)
    requires Doomed(o, pid) && o.phase == Moving && o.inFlight == [Move(F2, OUT), Move(O, F2)] && F2 in sensors.occupied
    ensures pid !in Dispatch(o, sensors, cfg, id).state.parts
  {
    SecondMove(o, pid);
  }

  lemma ShownArrives(s: LineState, pid: PartId, dt: real, id: nat)
    requires Doomed(s, pid) && s.phase == Moving && s.inFlight == [Move(F2, OUT), Move(O, F2)]
    ensures F2 in Ordinary(s, dt, id).inputs.sensors.occupied
  {
    SecondMove(s, pid);
  }

  lemma ArriveTick(cfg: Config, s: LineState, pid: PartId, dt: real, id: nat)
    requires Leaving(cfg, s, pid) && s.phase == Moving && s.inFlight == [Move(F2, OUT), Move(O, F2)] && dt >= 0.0
    ensures pid !in React(cfg, s, Ordinary(s, dt, id)).state.parts
  {
    var inputs := Ordinary(s, dt, id).inputs;
    OrdinaryAgrees(s, dt, id);
    ShownArrives(s, pid, dt, id);
    TickDispatches(cfg, s, pid, false, true, inputs, id);
    SecondArrival(Observed(Sensed(s, false, true), inputs, cfg), pid, inputs.sensors, cfg, id);
  }

  /** Once past the guard, three more ticks take the part off. */
  lemma PastTheGuard(cfg: Config, s: LineState, pid: PartId, dt: real, id: nat)
    requires Leaving(cfg, s, pid) && s.phase == ShutterOpen && s.inFlight == [] && dt >= 0.0
    ensures LeavesAt(cfg, s, id, dt, 2, pid)
  {
    var r1 := React(cfg, s, Ordinary(s, dt, id));
    ShutterTick(cfg, s, pid, dt, id);
    var r2 := React(cfg, r1.state, Ordinary(r1.state, dt, r1.nextId));
    DepartTick(cfg, r1.state, pid, dt, r1.nextId);
    ArriveTick(cfg, r2.state, pid, dt, r2.nextId);
    assert LeavesAt(cfg, r2.state, r2.nextId, dt, 0, pid);
    OneTickOn(cfg, r1.state, r1.nextId, dt, 0, pid);
    OneTickOn(cfg, s, id, dt, 1, pid);
  }

  /** However long the flash, a running fan ends it, and the part leaves. */
  lemma {:induction false} GuardOpens(cfg: Config, s: LineState, pid: PartId, dt: real, id: nat, m: nat) returns (n: nat)
    requires AtGuard(s, pid) && dt > 0.0 && s.parts[pid].flash1 + Drain.Seconds(m + 1, dt) >= cfg.flashSeconds
    ensures LeavesAt(cfg, s, id, dt, n, pid)
    decreases m
  {
    var e := Ordinary(s, dt, id);
    var r := React(cfg, s, e);
    OrdinaryAgrees(s, dt, id);
    GuardTick(cfg, s, pid, false, true, e.inputs, id);
    if r.state.phase == ShutterOpen {
      PastTheGuard(cfg, r.state, pid, dt, r.nextId);
      n := 2;
    } else {
      n := GuardOpens(cfg, r.state, pid, dt, r.nextId, m - 1);
    }
    OneTickOn(cfg, s, id, dt, n, pid);
    n := n + 1;
  }

  lemma {:induction false} LongEnough(seconds: real, dt: real) returns (m: nat)
    requires dt > 0.0
    ensures Drain.Seconds(m + 1, dt) >= seconds
    decreases Drain.Ticks(seconds, dt)
  {
    if seconds <= dt {
      m := 0;
      assert Drain.Seconds(0, dt) == 0.0;
    } else {
      Drain.OneTickLess(seconds, dt);
      m := LongEnough(seconds - dt, dt);
      m := m + 1;
    }
  }

  // ------------------------------------------------- the two confirmations

  lemma DoomedBy(all: seq<PartId>, cfg: Config, s: LineState)
    requires OnSchedule(all, cfg, s) && MidAdvance(s) && s.beat == P1 && O in s.occupancy && F1 in s.occupancy
    ensures Doomed(s.(occupancy := Projected(s).occupancy, fault := None, faultPhase := None), s.occupancy[O])
  {
    var p := Projected(s).occupancy;
    MovedPicture(all, cfg, s);
    ProjectedNamed(all, cfg, s);
    LeadHasOneCoat(all, cfg, s);
    KeyedParts(all, cfg, s);
    ProjectedPlaces(all, cfg, s, F1);
    assert LayoutOf(Projected(s)).occupancy == p;
    assert At(p, F1) == None;
  }

  lemma ConfirmedTwiceAtGuard(all: seq<PartId>, cfg: Config, s: LineState, early: Sensors, late: Sensors, i: nat, k: nat)
    requires OnSchedule(all, cfg, s) && MidAdvance(s) && s.beat == P1 && O in s.occupancy && F1 in s.occupancy
    requires OccupancyMismatch(Projected(s), early).Some? && OccupancyMismatch(Projected(s), late).None?
    ensures AtGuard(ConfirmedTwice(cfg, s, early, late, i, k), s.occupancy[O])
  {
    var p := Projected(s).occupancy;
    ProjectionDiffers(all, cfg, s);
    ShiftedTwice(all, cfg, s);
    RefusedIsKept(s, early, p, i);
    AcceptedAgain(s.(occupancy := p), late, p, k);
    DoomedBy(all, cfg, s);
    DoomedDepends(s.(occupancy := p, fault := None, faultPhase := None), ConfirmedTwice(cfg, s, early, late, i, k), s.occupancy[O]);
  }

  /** Confirm the moved picture, be refused, and confirm it again. */
  function ConfirmedTwice(cfg: Config, s: LineState, early: Sensors, late: Sensors, i: nat, k: nat): LineState {
    var p := Some(Projected(s).occupancy);
    var once := React(cfg, s, Acknowledge(early, p, None, i)).state;
    React(cfg, once, Acknowledge(late, p, None, k)).state
  }

  /** The violation, from every P1 fault with lead and trail on the line: after the two
      confirmations, ordinary ticks with F2's fan on take the lead off the line with
      one coat, whatever the flash time and the tick. */
  lemma ConfirmedTwiceSkipsCoat2(
    all: seq<PartId>, cfg: Config, s: LineState, early: Sensors, late: Sensors, i: nat, k: nat, dt: real, id: nat)
    returns (n: nat)
    requires OnSchedule(all, cfg, s) && MidAdvance(s) && s.beat == P1 && O in s.occupancy && F1 in s.occupancy
    requires OccupancyMismatch(Projected(s), early).Some? && OccupancyMismatch(Projected(s), late).None?
    requires dt > 0.0
    ensures LeavesAt(cfg, ConfirmedTwice(cfg, s, early, late, i, k), id, dt, n, s.occupancy[O])
  {
    var r, pid := ConfirmedTwice(cfg, s, early, late, i, k), s.occupancy[O];
    ConfirmedTwiceAtGuard(all, cfg, s, early, late, i, k);
    var m := LongEnough(cfg.flashSeconds - r.parts[pid].flash1, dt);
    n := GuardOpens(cfg, r, pid, dt, id, m);
  }

  // ------------------------------------------------------------- a witness

  /** The second pair at P1, its lead coated at O behind a finished part at F2 whose
      fan runs; the train was not seen to arrive. */
  function Stalled(cfg: Config): (seq<PartId>, LineState) {
    var done := PartState(Id(1), CUBE, TRAIL, 0, 2, cfg.flashSeconds, cfg.flashSeconds, false);
    var lead := PartState(Id(2), CUBE, LEAD, 1, 1, 0.0, 0.0, true);
    var trail := PartState(Id(3), CUBE, TRAIL, 1, 0, 0.0, 0.0, false);
    ([Id(0), Id(1), Id(2), Id(3)],
     LineState(map[Id(1) := done, Id(2) := lead, Id(3) := trail], map[F2 := Id(1), O := Id(2), F1 := Id(3)], [], [],
               [Move(F2, OUT), Move(O, F2), Move(F1, O)], P1, 2, Faulted, false, true, Open, false,
               Some(NotConfirmed({F2})), Some(Moving)))
  }

  lemma StalledMoves(cfg: Config, s: LineState)
    requires s == Stalled(cfg).1
    ensures LiveMoves(s) == s.inFlight
  {
    var moves := TransitionMoves(P1);
    assert Filter(s, moves[3..]) == [];
    assert Filter(s, moves[2..]) == [Move(F1, O)] + Filter(s, moves[3..]);
    assert Filter(s, moves[1..]) == [Move(O, F2)] + Filter(s, moves[2..]);
    assert Filter(s, moves) == [Move(F2, OUT)] + Filter(s, moves[1..]);
  }

  lemma StalledParts(cfg: Config)
    ensures var (all, s) := Stalled(cfg); PartsFit(all, cfg, P1, 1, true, s.parts)
  {
    var (all, s) := Stalled(cfg);
    forall pid | pid in s.parts ensures PartFits(all, cfg, P1, 1, true, pid, s.parts[pid]) {
    }
    forall i | 0 <= i < |all| && LowNumber(P1, 1) <= i ensures all[i] in s.parts && Number(s.parts[all[i]]) == i {
      assert i == 1 || i == 2 || i == 3;
    }
  }

  lemma StalledPlaces(cfg: Config)
    ensures var (all, s) := Stalled(cfg); PlacesFit(all, P1, 1, LayoutOf(s))
  {
    var (all, s) := Stalled(cfg);
    forall st ensures At(s.occupancy, st) == Occupant(all, P1, 1, st) {
    }
    assert all[4..] == [];
  }

  lemma StalledFlight(cfg: Config)
    ensures var s := Stalled(cfg).1; FlightFits(cfg, s) && FaultFits(s) && MidAdvance(s)
  {
    StalledMoves(cfg, Stalled(cfg).1);
  }

  /** Such a fault is on schedule. */
  lemma StalledIsScheduled(cfg: Config)
    ensures var (all, s) := Stalled(cfg); OnSchedule(all, cfg, s) && MidAdvance(s)
  {
    StalledParts(cfg);
    StalledPlaces(cfg);
    StalledFlight(cfg);
  }

  /** Eyes that lag behind the train, and eyes that have settled. */
  lemma StalledIsLost(cfg: Config, dt: real) returns (n: nat)
    requires dt > 0.0
    ensures
      var (all, s) := Stalled(cfg);
      var early := Sensors({O}, Open, false, true, true, false, false, false);
      var late := early.(occupied := {F2, O});
      LeavesAt(cfg, ConfirmedTwice(cfg, s, early, late, 0, 1), 2, dt, n, Id(2))
  {
    var (all, s) := Stalled(cfg);
    StalledIsScheduled(cfg);
    MovedPicture(all, cfg, s);
    ProjectedPlaces(all, cfg, s, F1);
    assert LayoutOf(Projected(s)).occupancy == Projected(s).occupancy;
    var early := Sensors({O}, Open, false, true, true, false, false, false);
    n := ConfirmedTwiceSkipsCoat2(all, cfg, s, early, early.(occupied := {F2, O}), 0, 1, dt, 2);
  }
}

/** Never under-flash: every step and every honest recovery keeps the closed-form
    invariant, whatever the sensors, completions, fan feedback and faults do. */
module Safety {
  import opened Model
  import opened Schedule
  import opened Timers
  import opened Guards
  import opened Machine
  import opened Moves
  import opened Pattern

  // ------------------------------------------------- moving the state along

  lemma {:induction false} FilterDepends(s: LineState, t: LineState, moves: seq<Move>)
    requires s.occupancy == t.occupancy && s.inQueue == t.inQueue
    ensures Filter(s, moves) == Filter(t, moves)
  {
    if moves != [] {
      FilterDepends(s, t, moves[1..]);
    }
  }

  lemma LiveMovesDepend(s: LineState, t: LineState)
    requires s.occupancy == t.occupancy && s.inQueue == t.inQueue && s.beat == t.beat
    ensures LiveMoves(s) == LiveMoves(t)
  {
    FilterDepends(s, t, TransitionMoves(s.beat));
  }

  /** The layout and the effective beat are all the invariant sees. */
  lemma Rephased(all: seq<PartId>, cfg: Config, s: LineState, t: LineState)
    requires OnSchedule(all, cfg, s)
    requires LayoutOf(t) == LayoutOf(s)
    requires EffBeat(t) == EffBeat(s) && EffPair(t) == EffPair(s)
    requires WorkDone(t) ==> WorkDone(s)
    requires FlightFits(cfg, t) && FaultFits(t)
    ensures OnSchedule(all, cfg, t)
  {
    forall pid | pid in t.parts
      ensures PartFits(all, cfg, EffBeat(t), EffPair(t), WorkDone(t), pid, t.parts[pid])
    {
      assert PartFits(all, cfg, EffBeat(s), EffPair(s), WorkDone(s), pid, s.parts[pid]);
    }
    assert LayoutOf(t).occupancy == t.occupancy && LayoutOf(t).inQueue == t.inQueue && LayoutOf(t).parts == t.parts;
  }

  lemma FlightCarries(cfg: Config, s: LineState, t: LineState)
    requires FlightFits(cfg, s)
    requires t.occupancy == s.occupancy && t.inQueue == s.inQueue && t.beat == s.beat && t.inFlight == s.inFlight
    requires t.inFlight != [] ==> Entry(t) == Moving
    requires t.parts.Keys <= s.parts.Keys
    requires forall pid :: pid in t.parts && MayLeaveFan(s.parts[pid], cfg) ==> MayLeaveFan(t.parts[pid], cfg)
    ensures FlightFits(cfg, t)
  {
    LiveMovesDepend(s, t);
  }

  /** Banking time never loses progress. */
  lemma BankFits(all: seq<PartId>, cfg: Config, b: Beat, j: int, done: bool, pid: PartId, p: PartState, dt: real)
    requires PartFits(all, cfg, b, j, done, pid, p) && dt >= 0.0
    ensures PartFits(all, cfg, b, j, done, pid, Bank(p, dt, cfg))
    ensures MayLeaveFan(p, cfg) ==> MayLeaveFan(Bank(p, dt, cfg), cfg)
  {
  }

  lemma ObservedParts(all: seq<PartId>, cfg: Config, s: LineState, b: Beat, j: int, done: bool, dt: real)
    requires KeyedById(s.parts) && dt >= 0.0
    requires PartsFit(all, cfg, b, j, done, s.parts)
    ensures PartsFit(all, cfg, b, j, done, AdvanceFlash(s, dt, cfg))
    ensures AdvanceFlash(s, dt, cfg).Keys == s.parts.Keys
    ensures forall pid :: pid in s.parts && MayLeaveFan(s.parts[pid], cfg) ==>
      MayLeaveFan(AdvanceFlash(s, dt, cfg)[pid], cfg)
  {
    var parts := AdvanceFlash(s, dt, cfg);
    AdvanceFlashPointwise(s, dt, cfg);
    forall pid | pid in parts
      ensures PartFits(all, cfg, b, j, done, pid, parts[pid])
      ensures MayLeaveFan(s.parts[pid], cfg) ==> MayLeaveFan(parts[pid], cfg)
    {
      BankFits(all, cfg, b, j, done, pid, s.parts[pid], dt);
    }
    assert forall pid :: pid in parts ==> Number(parts[pid]) == Number(s.parts[pid]);
  }

  /** Banking time and landing completions disturb nothing. */
  lemma ObservedKeeps(all: seq<PartId>, cfg: Config, s: LineState, pending: seq<nat>, dt: real)
    requires OnSchedule(all, cfg, s) && dt >= 0.0
    ensures OnSchedule(all, cfg, s.(parts := AdvanceFlash(s, dt, cfg), pending := pending))
  {
    var t := s.(parts := AdvanceFlash(s, dt, cfg), pending := pending);
    KeyedParts(all, cfg, s);
    ObservedParts(all, cfg, s, EffBeat(s), EffPair(s), WorkDone(s), dt);
    FlightCarries(cfg, s, t);
    SamePlaces(all, cfg, s, t);
  }

  lemma SamePlaces(all: seq<PartId>, cfg: Config, s: LineState, t: LineState)
    requires OnSchedule(all, cfg, s)
    requires t.occupancy == s.occupancy && t.inQueue == s.inQueue
    requires EffBeat(t) == EffBeat(s) && EffPair(t) == EffPair(s)
    ensures PlacesFit(all, EffBeat(t), EffPair(t), LayoutOf(t))
  {
    forall st ensures At(t.occupancy, st) == Occupant(all, EffBeat(t), EffPair(t), st) {
      assert At(s.occupancy, st) == Occupant(all, EffBeat(s), EffPair(s), st);
    }
  }

  lemma KeyedParts(all: seq<PartId>, cfg: Config, s: LineState)
    requires OnSchedule(all, cfg, s)
    ensures KeyedById(s.parts)
  {
    forall pid | pid in s.parts ensures s.parts[pid].partId == pid {
      assert PartFits(all, cfg, EffBeat(s), EffPair(s), WorkDone(s), pid, s.parts[pid]);
    }
  }

  lemma FaultKeeps(all: seq<PartId>, cfg: Config, s: LineState, reason: Reason, id: nat)
    requires OnSchedule(all, cfg, s)
    ensures OnSchedule(all, cfg, EnterFault(s, reason, id).state)
  {
    var t := EnterFault(s, reason, id).state;
    FlightCarries(cfg, s, t);
    Rephased(all, cfg, s, t);
  }

  // ------------------------------------------------------- phase by phase

  /** The part the robot has in front of it, by number and by progress. */
  lemma PartAtO(all: seq<PartId>, cfg: Config, s: LineState)
    requires OnSchedule(all, cfg, s) && !AfterMove(s)
    ensures O in s.occupancy ==>
      && s.PartAt(O).Some? && s.PartAt(O).value.partId == s.occupancy[O]
      && Some(Number(s.PartAt(O).value)) == NumberAt(s.beat, s.pairIndex - 1, O)
      && s.PartAt(O).value.role == Spec(s.beat).role
      && Spec(s.beat).coat - 1 <= s.PartAt(O).value.coats <= Spec(s.beat).coat
      && (Spec(s.beat).coat == 2 ==> s.PartAt(O).value.flash1 >= cfg.flashSeconds)
  {
    var b, j := s.beat, s.pairIndex - 1;
    assert At(s.occupancy, O) == Occupant(all, b, j, O);
    if O in s.occupancy {
      var i := NumberAt(b, j, O).value;
      assert all[i] in s.parts && Number(s.parts[all[i]]) == i;
      assert PartFits(all, cfg, b, j, WorkDone(s), all[i], s.parts[all[i]]);
    }
  }

  /** Same part, later in its work: the coat of this beat is on. */
  predicate Coated(s: LineState, parts: map<PartId, PartState>) {
    && parts.Keys == s.parts.Keys
    && (forall pid :: pid in parts ==>
         if At(s.occupancy, O) == Some(pid) then
           && parts[pid].coats == Spec(s.beat).coat
           && parts[pid] == s.parts[pid].(coats := parts[pid].coats, isWet := parts[pid].isWet)
         else parts[pid] == s.parts[pid])
  }

  lemma CoatedPartFits(all: seq<PartId>, cfg: Config, b: Beat, j: int, done: bool, s: LineState, pid: PartId, p: PartState)
    requires At(s.occupancy, O) == Occupant(all, b, j, O)
    requires pid in s.parts && PartFits(all, cfg, b, j, done, pid, s.parts[pid])
    requires
      if At(s.occupancy, O) == Some(pid) then
        p.coats == Spec(b).coat && p == s.parts[pid].(coats := p.coats, isWet := p.isWet)
        && Some(Number(s.parts[pid])) == NumberAt(b, j, O)
      else p == s.parts[pid]
    ensures PartFits(all, cfg, b, j, true, pid, p)
  {
  }

  lemma CoatedFits(all: seq<PartId>, cfg: Config, s: LineState, parts: map<PartId, PartState>)
    requires OnSchedule(all, cfg, s) && !AfterMove(s)
    requires Coated(s, parts)
    ensures PartsFit(all, cfg, s.beat, s.pairIndex - 1, true, parts)
  {
    var b, j := s.beat, s.pairIndex - 1;
    PartAtO(all, cfg, s);
    assert At(s.occupancy, O) == Occupant(all, b, j, O);
    forall pid | pid in parts ensures PartFits(all, cfg, b, j, true, pid, parts[pid]) {
      CoatedPartFits(all, cfg, b, j, WorkDone(s), s, pid, parts[pid]);
    }
    assert forall pid :: pid in parts ==> Number(parts[pid]) == Number(s.parts[pid]);
  }

  /** The robot's work, done now or found done, opens the guard phase. */
  lemma WorkKeeps(all: seq<PartId>, cfg: Config, s: LineState, t: LineState)
    requires OnSchedule(all, cfg, s) && s.phase == RobotWork
    requires t == s.(phase := AwaitGuards, parts := t.parts, pending := t.pending)
    requires Coated(s, t.parts)
    ensures OnSchedule(all, cfg, t)
  {
    CoatedFits(all, cfg, s, t.parts);
    SamePlaces(all, cfg, s, t);
  }

  /** The work phase either stays or ends with the beat's coat on the part at O;
      it never faults. */
  lemma RobotWorkOutcome(all: seq<PartId>, cfg: Config, s: LineState, sensors: Sensors, id: nat)
    requires OnSchedule(all, cfg, s) && s.phase == RobotWork
    ensures
      var t := RobotWorkPhase(s, sensors, cfg, id).state;
      t == s || (t == s.(phase := AwaitGuards, parts := t.parts, pending := t.pending) && Coated(s, t.parts))
  {
    PartAtO(all, cfg, s);
    assert At(s.occupancy, O) == Occupant(all, s.beat, s.pairIndex - 1, O);
  }

  lemma RobotWorkKeeps(all: seq<PartId>, cfg: Config, s: LineState, sensors: Sensors, id: nat)
    requires OnSchedule(all, cfg, s) && s.phase == RobotWork
    ensures OnSchedule(all, cfg, RobotWorkPhase(s, sensors, cfg, id).state)
  {
    var t := RobotWorkPhase(s, sensors, cfg, id).state;
    RobotWorkOutcome(all, cfg, s, sensors, id);
    if t != s {
      WorkKeeps(all, cfg, s, t);
    }
  }

  lemma {:induction false} FilterWellOrdered(s: LineState, moves: seq<Move>)
    requires WellOrdered(moves)
    ensures WellOrdered(Filter(s, moves))
    ensures forall m :: m in Filter(s, moves) ==> m in moves
  {
    if moves != [] {
      var rest := moves[1..];
      FilterWellOrdered(s, rest);
      forall m | m in Filter(s, rest)
        ensures moves[0].src != m.src && moves[0].dst != m.dst && moves[0].dst != m.src
      {
        assert m in rest;
      }
      assert forall k :: 0 <= k < |Filter(s, rest)| ==> Filter(s, rest)[k] in Filter(s, rest);
    }
  }

  /** What a passed departure guard says about the flashes. */
  lemma DeparturePassed(s: LineState, sensors: Sensors, cfg: Config)
    requires DepartureBlocked(s, sensors, cfg, LiveMoves(s)).None?
    ensures forall m :: m in LiveMoves(s) ==> !UnderFlashed(s, cfg, m)
  {
    ScheduleIsWellOrdered(s.beat);
    FilterWellOrdered(s, TransitionMoves(s.beat));
    WalkRejectsExactly(s, cfg, LiveMoves(s), sensors.occupied);
  }

  lemma MovingKeeps(all: seq<PartId>, cfg: Config, s: LineState, sensors: Sensors, id: nat)
    requires OnSchedule(all, cfg, s) && s.phase == Moving
    ensures OnSchedule(all, cfg, MovingPhase(s, sensors, cfg, id).state)
  {
    var r := MovingPhase(s, sensors, cfg, id);
    if s.inFlight != [] {
      if r.state.phase == Faulted {
        FaultKeeps(all, cfg, s, r.state.fault.value, id);
      } else {
        assert r.state == Advanced(s);
        AdvanceKeepsSchedule(all, cfg, s);
      }
    } else if LiveMoves(s) == [] {
      assert r.state == Advanced(s);
      AdvanceKeepsSchedule(all, cfg, s);
    } else if r.state.inFlight != [] {
      DeparturePassed(s, sensors, cfg);
      LaunchKeeps(all, cfg, s, r.state);
    }
  }

  lemma LaunchKeeps(all: seq<PartId>, cfg: Config, s: LineState, t: LineState)
    requires OnSchedule(all, cfg, s) && s.phase == Moving
    requires forall m :: m in LiveMoves(s) ==> !UnderFlashed(s, cfg, m)
    requires t == s.(inFlight := LiveMoves(s), pending := t.pending)
    ensures OnSchedule(all, cfg, t)
  {
    LiveMovesDepend(s, t);
    Rephased(all, cfg, s, t);
  }

  lemma SetFansKeeps(all: seq<PartId>, cfg: Config, s: LineState, id: nat)
    requires OnSchedule(all, cfg, s) && s.phase == SetFans
    ensures OnSchedule(all, cfg, SetFansPhase(s, id).state)
  {
    Rephased(all, cfg, s, SetFansPhase(s, id).state);
  }

  lemma DispatchKeeps(all: seq<PartId>, cfg: Config, s: LineState, sensors: Sensors, id: nat)
    requires OnSchedule(all, cfg, s) && s.phase != Faulted
    ensures OnSchedule(all, cfg, Dispatch(s, sensors, cfg, id).state)
  {
    match s.phase {
      case RobotWork => RobotWorkKeeps(all, cfg, s, sensors, id);
      case AwaitGuards =>
        if AwaitGuardsPhase(s, sensors, cfg, id).state != s {
          Rephased(all, cfg, s, s.(phase := ShutterOpen));
        }
      case ShutterOpen => Rephased(all, cfg, s, Dispatch(s, sensors, cfg, id).state);
      case Moving => MovingKeeps(all, cfg, s, sensors, id);
      case ShutterClose => Rephased(all, cfg, s, Dispatch(s, sensors, cfg, id).state);
      case SetFans => SetFansKeeps(all, cfg, s, id);
    }
  }

  /** One step from any sensors, completions and fault keeps the invariant. */
  lemma StepKeeps(all: seq<PartId>, cfg: Config, s: LineState, inp: Inputs, id: nat)
    requires OnSchedule(all, cfg, s) && inp.dt >= 0.0
    ensures OnSchedule(all, cfg, Step(s, inp, cfg, id).state)
  {
    var o := Observed(s, inp, cfg);
    ObservedKeeps(all, cfg, s, o.pending, inp.dt);
    var r := Step(s, inp, cfg, id);
    if inp.fault.Some? {
      FaultKeeps(all, cfg, o, inp.fault.value, id);
    } else if o.phase == Faulted {
    } else if o.phase != Moving && OccupancyMismatch(o, inp.sensors).Some? {
      FaultKeeps(all, cfg, o, OccupancyMismatch(o, inp.sensors).value, id);
    } else if o.pending == [] {
      DispatchKeeps(all, cfg, o, inp.sensors, id);
    }
  }
}

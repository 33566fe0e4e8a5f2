/** Operator-acknowledged recovery: a mid-advance fault is unambiguous, either
    honest confirmation re-enters the schedule, and the one confirmation that
    does not is the rejected one. */
module Recovery {
  import opened Model
  import opened Schedule
  import opened Timers
  import opened Guards
  import opened Machine
  import opened Moves
  import opened Pattern
  import opened Safety

  /** Faulted while the train was under way. */
  predicate MidAdvance(s: LineState) {
    s.phase == Faulted && EntryPhase(s) == Moving && s.inFlight != []
  }

  function Projected(s: LineState): LineState {
    Shifted(s.(fault := None), s.inFlight)
  }

  /** The mid-advance fault with its latch lifted: the state the fault interrupted. */
  function Unfaulted(s: LineState): LineState {
    s.(phase := Moving, fault := None, faultPhase := None)
  }

  lemma UnfaultedReady(all: seq<PartId>, cfg: Config, s: LineState)
    requires OnSchedule(all, cfg, s) && MidAdvance(s)
    ensures ReadyToAdvance(all, cfg, Unfaulted(s))
    ensures LayoutOf(Advanced(Unfaulted(s))) == LayoutOf(Projected(s))
  {
    var u := Unfaulted(s);
    LiveMovesDepend(s, u);
    FlightCarries(cfg, s, u);
    Rephased(all, cfg, s, u);
  }

  // --------------------------------------------------------- unambiguous

  lemma DistinctOnLine(all: seq<PartId>, cfg: Config, s: LineState, i: int, k: int)
    requires OnSchedule(all, cfg, s)
    requires 0 <= i < |all| && 0 <= k < |all| && i != k
    requires LowNumber(EffBeat(s), EffPair(s)) <= i && LowNumber(EffBeat(s), EffPair(s)) <= k
    ensures all[i] != all[k]
  {
    assert Number(s.parts[all[i]]) == i && Number(s.parts[all[k]]) == k;
  }

  lemma PlaceOf(all: seq<PartId>, cfg: Config, s: LineState, st: Station)
    requires OnSchedule(all, cfg, s)
    ensures At(s.occupancy, st) == Occupant(all, EffBeat(s), EffPair(s), st)
  {
    assert At(LayoutOf(s).occupancy, st) == Occupant(all, EffBeat(s), EffPair(s), st);
  }

  lemma AdvancedPlace(all: seq<PartId>, cfg: Config, u: LineState, st: Station)
    requires ReadyToAdvance(all, cfg, u)
    ensures At(LayoutOf(Advanced(u)).occupancy, st) ==
      Occupant(all, NextBeat(u.beat), NextPair(u.beat, u.pairIndex - 1), st)
  {
    ScheduledIdsNamed(all, cfg, u);
    AdvanceIsShift(u);
    ShiftedPlaces(all, cfg, u, LayoutOf(Advanced(u)));
  }

  lemma ProjectedPlaces(all: seq<PartId>, cfg: Config, s: LineState, st: Station)
    requires OnSchedule(all, cfg, s) && MidAdvance(s)
    ensures At(s.occupancy, st) == Occupant(all, s.beat, s.pairIndex - 1, st)
    ensures At(LayoutOf(Projected(s)).occupancy, st) ==
      Occupant(all, NextBeat(s.beat), NextPair(s.beat, s.pairIndex - 1), st)
  {
    PlaceOf(all, cfg, s, st);
    UnfaultedReady(all, cfg, s);
    AdvancedPlace(all, cfg, Unfaulted(s), st);
  }

  /** No station keeps its occupant across a transition. */
  lemma OccupantMovesOn(all: seq<PartId>, cfg: Config, s: LineState, st: Station)
    requires OnSchedule(all, cfg, s) && MidAdvance(s) && st in s.occupancy
    ensures At(LayoutOf(Projected(s)).occupancy, st) != At(s.occupancy, st)
  {
    var b, j := s.beat, s.pairIndex - 1;
    ProjectedPlaces(all, cfg, s, st);
    var i, k := NumberAt(b, j, st), NumberAt(NextBeat(b), NextPair(b, j), st);
    if k.Some? && 0 <= k.value < |all| {
      DistinctOnLine(all, cfg, s, i.value, k.value);
    }
  }

  lemma IdleTrainFeeds(s: LineState, m: Move)
    requires m in LiveMoves(s) && s.occupancy == map[]
    ensures m == Move(IN, F1) && s.inQueue != [] && Vacates(s.beat, IN)
  {
    LiveIs(s, m);
  }

  /** From an empty line the only thing an advance does is bring a part in. */
  lemma FirstFeed(u: LineState)
    requires u.occupancy == map[] && LiveMoves(u) != []
    ensures LayoutOf(Advanced(u)).inQueue != u.inQueue
  {
    assert LiveMoves(u)[0] in LiveMoves(u);
    IdleTrainFeeds(u, LiveMoves(u)[0]);
    AdvanceIsShift(u);
  }

  lemma EmptyShiftKeepsQueue(all: seq<PartId>, b: Beat, j: int, l: Layout, r: Layout)
    requires PlacesFit(all, b, j, l) && j >= -1
    requires BeatShift(b, l, r)
    requires l.occupancy == map[] && r.occupancy == map[]
    ensures r.inQueue == l.inQueue
  {
    assert At(r.occupancy, F1) == LandsOn(b, l, F1);
  }

  /** A train with anything to move leaves a different picture behind, so the
      operator's map tells the two outcomes of a mid-advance fault apart. */
  lemma ProjectionDiffers(all: seq<PartId>, cfg: Config, s: LineState)
    requires OnSchedule(all, cfg, s) && MidAdvance(s)
    ensures Projected(s).occupancy != s.occupancy
  {
    assert LayoutOf(Projected(s)).occupancy == Projected(s).occupancy;
    if s.occupancy != map[] {
      var st :| st in s.occupancy;
      OccupantMovesOn(all, cfg, s, st);
    } else {
      EmptyProjectionDiffers(all, cfg, s);
    }
  }

  lemma EmptyProjectionDiffers(all: seq<PartId>, cfg: Config, s: LineState)
    requires OnSchedule(all, cfg, s) && MidAdvance(s) && s.occupancy == map[]
    ensures LayoutOf(Projected(s)).occupancy != map[]
  {
    var u := Unfaulted(s);
    UnfaultedReady(all, cfg, s);
    LiveMovesDepend(s, u);
    FirstFeed(u);
    AdvanceIsShift(u);
    if LayoutOf(Projected(s)).occupancy == map[] {
      ScheduledLayout(all, cfg, u);
      EmptyShiftKeepsQueue(all, u.beat, u.pairIndex - 1, LayoutOf(u), LayoutOf(Advanced(u)));
    }
  }

  lemma ScheduledLayout(all: seq<PartId>, cfg: Config, s: LineState)
    requires OnSchedule(all, cfg, s)
    ensures PlacesFit(all, EffBeat(s), EffPair(s), LayoutOf(s)) && EffPair(s) >= -1
  {
  }

  // ------------------------------------------------------------- resuming

  /** Whatever was confirmed, an accepted resume agrees with the presence sensors. */
  lemma AcceptedAgreesWithSensors(
    s: LineState, sensors: Sensors, confirmed: Option<map<Station, PartId>>, beat: Option<Beat>, id: nat)
    requires s.phase == Faulted
    ensures
      var r := Resume(s, sensors, confirmed, beat, id).state;
      r.phase != Faulted <==>
        (r.phase in {RobotWork, AwaitGuards, ShutterClose} && r.fault.None? && r.pending == [id] &&
         forall st :: st == F1 || st == O || st == F2 ==> !Disagrees(r, sensors, st))
  {
  }

  /** Confirming what the controller believes re-enters the schedule: the guarded
      move mid-advance, the transition machinery after it, the work before it. */
  lemma BelievedKeeps(
    all: seq<PartId>, cfg: Config, s: LineState, sensors: Sensors, confirmed: Option<map<Station, PartId>>, id: nat)
    requires OnSchedule(all, cfg, s) && s.phase == Faulted
    requires confirmed == None || confirmed == Some(s.occupancy)
    ensures OnSchedule(all, cfg, Resume(s, sensors, confirmed, None, id).state)
    ensures
      var r := Resume(s, sensors, confirmed, None, id).state;
      r.phase != Faulted ==>
        && LayoutOf(r) == LayoutOf(s)
        && r.phase == (if AfterMove(s) then ShutterClose else if MidAdvance(s) then AwaitGuards else RobotWork)
  {
    var r := Resume(s, sensors, confirmed, None, id).state;
    if MidAdvance(s) {
      ProjectionDiffers(all, cfg, s);
    }
    if r.phase == Faulted {
      assert r == s;
    } else {
      Rephased(all, cfg, s, r);
    }
  }

  /** Confirming the projection mid-advance, with the sensors agreeing, yields the
      state a confirmed arrival yields: recovery commutes with the advance. */
  lemma ProjectionCommutes(all: seq<PartId>, cfg: Config, s: LineState, sensors: Sensors, arrival: Sensors, id: nat)
    requires OnSchedule(all, cfg, s) && MidAdvance(s)
    requires OccupancyMismatch(Projected(s), sensors).None?
    requires Arrivals(s.inFlight) <= arrival.occupied
    ensures
      var r := Resume(s, sensors, Some(Projected(s).occupancy), None, id).state;
      && r == MovingPhase(Unfaulted(s), arrival, cfg, id).state.(pending := [id])
      && OnSchedule(all, cfg, r)
  {
    var u := Unfaulted(s);
    var r := Resume(s, sensors, Some(Projected(s).occupancy), None, id).state;
    LiveMovesDepend(s, u);
    UnfaultedReady(all, cfg, s);
    AdvanceKeepsSchedule(all, cfg, u);
    assert Arrivals(s.inFlight) - arrival.occupied == {};
    assert r == Advanced(u).(pending := [id]);
    Rephased(all, cfg, Advanced(u), r);
  }

  /** The exact condition on confirming the projection: the sensors must agree at
      that moment. A rejected confirmation is kept as belief while the moves stay
      in flight, and the schedule is lost. */
  lemma ProjectionKeepsIffAccepted(all: seq<PartId>, cfg: Config, s: LineState, sensors: Sensors, id: nat)
    requires OnSchedule(all, cfg, s) && MidAdvance(s)
    ensures OnSchedule(all, cfg, Resume(s, sensors, Some(Projected(s).occupancy), None, id).state)
      <==> OccupancyMismatch(Projected(s), sensors).None?
  {
    if OccupancyMismatch(Projected(s), sensors).None? {
      ProjectionCommutes(all, cfg, s, sensors, sensors.(occupied := Arrivals(s.inFlight)), id);
    } else {
      assert Resume(s, sensors, Some(Projected(s).occupancy), None, id).state == s.(occupancy := Projected(s).occupancy);
      ProjectionDiffers(all, cfg, s);
      if OnSchedule(all, cfg, s.(occupancy := Projected(s).occupancy)) {
        SamePlacesSameMap(all, cfg, s, s.(occupancy := Projected(s).occupancy));
      }
    }
  }

  /** The schedule leaves no freedom in the map: beat and pair determine it. */
  lemma SamePlacesSameMap(all: seq<PartId>, cfg: Config, s: LineState, t: LineState)
    requires OnSchedule(all, cfg, s) && OnSchedule(all, cfg, t)
    requires EffBeat(s) == EffBeat(t) && EffPair(s) == EffPair(t)
    ensures s.occupancy == t.occupancy
  {
    forall st ensures At(s.occupancy, st) == At(t.occupancy, st) {
      assert At(LayoutOf(s).occupancy, st) == Occupant(all, EffBeat(s), EffPair(s), st);
      assert At(LayoutOf(t).occupancy, st) == Occupant(all, EffBeat(t), EffPair(t), st);
    }
    SameOccupancy(s.occupancy, t.occupancy);
  }

  lemma SameOccupancy(x: map<Station, PartId>, y: map<Station, PartId>)
    requires forall st :: At(x, st) == At(y, st)
    ensures x == y
  {
    assert forall st :: st in x <==> st in y by {
      forall st ensures st in x <==> st in y {
        assert At(x, st) == At(y, st);
      }
    }
    forall st | st in x ensures x[st] == y[st] {
      assert At(x, st) == At(y, st);
    }
  }

  // -------------------------------------------- confirming a projection twice

  lemma ProjectedNamed(all: seq<PartId>, cfg: Config, s: LineState)
    requires OnSchedule(all, cfg, s) && MidAdvance(s)
    ensures forall st :: st in Projected(s).occupancy ==> Projected(s).occupancy[st] != EmptyId
  {
    UnfaultedReady(all, cfg, s);
    AdvanceKeepsSchedule(all, cfg, Unfaulted(s));
    ScheduledIdsNamed(all, cfg, Advanced(Unfaulted(s)));
    assert LayoutOf(Projected(s)).occupancy == Projected(s).occupancy;
    assert LayoutOf(Advanced(Unfaulted(s))).occupancy == Advanced(Unfaulted(s)).occupancy;
  }

  /** The moves in flight deliver the part at O to F2. */
  lemma FlightFeedsF2(s: LineState)
    requires s.beat == P1 && s.inFlight == LiveMoves(s) && s.Holds(O)
    ensures WellOrdered(s.inFlight) && FeederOf(s.inFlight, F2) == Some(O)
  {
    ScheduleIsWellOrdered(P1);
    FilterWellOrdered(s, TransitionMoves(P1));
    FeederIsMove(s.inFlight, F2);
    assert Move(O, F2) == TransitionMoves(P1)[1];
    LiveIs(s, Move(O, F2));
    if FeederOf(s.inFlight, F2).Some? {
      LiveIs(s, Move(FeederOf(s.inFlight, F2).value, F2));
    }
  }

  lemma FirstBeatMoves(all: seq<PartId>, cfg: Config, s: LineState)
    requires OnSchedule(all, cfg, s) && MidAdvance(s) && s.beat == P1
    requires O in s.occupancy && F1 in s.occupancy
    ensures At(LayoutOf(Projected(s)).occupancy, F2) == At(s.occupancy, O)
    ensures At(LayoutOf(Projected(s)).occupancy, O) == At(s.occupancy, F1)
  {
    ProjectedPlaces(all, cfg, s, O);
    ProjectedPlaces(all, cfg, s, F2);
    ProjectedPlaces(all, cfg, s, F1);
  }

  lemma LeadIsNotTrail(all: seq<PartId>, cfg: Config, s: LineState)
    requires OnSchedule(all, cfg, s) && MidAdvance(s) && s.beat == P1
    requires O in s.occupancy && F1 in s.occupancy
    ensures s.occupancy[O] != s.occupancy[F1]
  {
    PlaceOf(all, cfg, s, O);
    PlaceOf(all, cfg, s, F1);
    DistinctOnLine(all, cfg, s, 2 * (s.pairIndex - 1), 2 * (s.pairIndex - 1) + 1);
  }

  /** The moved picture, and who is next behind the lead. */
  lemma MovedPicture(all: seq<PartId>, cfg: Config, s: LineState)
    requires OnSchedule(all, cfg, s) && MidAdvance(s) && s.beat == P1
    requires O in s.occupancy && F1 in s.occupancy
    ensures
      var p := LayoutOf(Projected(s)).occupancy;
      At(p, F2) == At(s.occupancy, O) && At(p, O) == At(s.occupancy, F1) && s.occupancy[O] != s.occupancy[F1]
  {
    FirstBeatMoves(all, cfg, s);
    LeadIsNotTrail(all, cfg, s);
  }

  lemma FedFromO(l: Layout, moves: seq<Move>)
    requires WellOrdered(moves) && FeederOf(moves, F2) == Some(O) && O in l.occupancy
    ensures At(ApplyMoves(l, moves).occupancy, F2) == At(l.occupancy, O)
  {
    InOrderIsSimultaneous(l, moves);
    assert After(l, moves, F2) == At(l.occupancy, O);
  }

  /** Shifting the already moved picture once more puts the trail where the lead is. */
  lemma ShiftedTwice(all: seq<PartId>, cfg: Config, s: LineState)
    requires OnSchedule(all, cfg, s) && MidAdvance(s) && s.beat == P1
    requires O in s.occupancy && F1 in s.occupancy
    ensures At(Projected(s).occupancy, F2) == At(s.occupancy, O)
    ensures ApplyMoves(Layout(Projected(s).occupancy, s.inQueue, s.parts), s.inFlight).occupancy != Projected(s).occupancy
  {
    ScheduledIdsNamed(all, cfg, s);
    MovedPicture(all, cfg, s);
    FlightFeedsF2(s);
    FedFromO(Layout(Projected(s).occupancy, s.inQueue, s.parts), s.inFlight);
  }

  lemma LeadHasOneCoat(all: seq<PartId>, cfg: Config, s: LineState)
    requires OnSchedule(all, cfg, s) && MidAdvance(s) && s.beat == P1 && O in s.occupancy
    ensures s.occupancy[O] in s.parts && s.parts[s.occupancy[O]].coats == 1
  {
    PlaceOf(all, cfg, s, O);
    var pid := s.occupancy[O];
    assert PartFits(all, cfg, P1, s.pairIndex - 1, WorkDone(s), pid, s.parts[pid]);
  }

  /** The machine believes the train moved, yet is about to move it again: the part
      at F2 has one coat and the next advance would take it off the line. */
  predicate SkipsCoat2(r: LineState, pid: PartId) {
    && r.phase == AwaitGuards && r.beat == P1
    && At(r.occupancy, F2) == Some(pid) && pid in r.parts && r.parts[pid].coats == 1
    && Move(F2, OUT) in LiveMoves(r)
    && pid !in LayoutOf(Shifted(r, LiveMoves(r))).parts
  }

  lemma OutOfF2(r: LineState, pid: PartId)
    requires r.beat == P1 && At(r.occupancy, F2) == Some(pid)
    requires forall st :: st in r.occupancy ==> r.occupancy[st] != EmptyId
    ensures Move(F2, OUT) in LiveMoves(r)
    ensures pid !in LayoutOf(Shifted(r, LiveMoves(r))).parts
  {
    assert TransitionMoves(P1)[0] == Move(F2, OUT);
    LiveIs(r, Move(F2, OUT));
    AdvanceIsShift(r);
  }

  /** Where the guarantee stops: an operator who confirms the true, moved picture
      before the sensors have settled, is refused, and confirms it again, restarts
      the move from the moved picture, with the lead, one coat on, first in line to
      leave. Only the departure guard still stands in between. */
  lemma ConfirmedTwiceRearms(all: seq<PartId>, cfg: Config, s: LineState, early: Sensors, late: Sensors, i: nat, k: nat)
    requires OnSchedule(all, cfg, s) && MidAdvance(s) && s.beat == P1
    requires O in s.occupancy && F1 in s.occupancy
    requires OccupancyMismatch(Projected(s), early).Some? && OccupancyMismatch(Projected(s), late).None?
    ensures
      var once := Resume(s, early, Some(Projected(s).occupancy), None, i).state;
      SkipsCoat2(Resume(once, late, Some(Projected(s).occupancy), None, k).state, s.occupancy[O])
  {
    var p := Projected(s).occupancy;
    ProjectionDiffers(all, cfg, s);
    ShiftedTwice(all, cfg, s);
    LeadHasOneCoat(all, cfg, s);
    ProjectedNamed(all, cfg, s);
    RefusedIsKept(s, early, p, i);
    var once := s.(occupancy := p);
    AcceptedAgain(once, late, p, k);
    OutOfF2(Resume(once, late, Some(p), None, k).state, s.occupancy[O]);
  }

  /** A refused projection stays behind as belief, with the moves still in flight. */
  lemma RefusedIsKept(s: LineState, sensors: Sensors, p: map<Station, PartId>, id: nat)
    requires MidAdvance(s) && p == Projected(s).occupancy
    requires OccupancyMismatch(Projected(s), sensors).Some?
    ensures Resume(s, sensors, Some(p), None, id).state == s.(occupancy := p)
  {
  }

  lemma AcceptedAgain(s: LineState, sensors: Sensors, p: map<Station, PartId>, id: nat)
    requires MidAdvance(s) && p == s.occupancy && p != Projected(s).occupancy
    requires OccupancyMismatch(s, sensors).None?
    ensures Resume(s, sensors, Some(p), None, id).state ==
      s.(phase := AwaitGuards, fault := None, faultPhase := None, pending := [id], inFlight := [])
  {
  }
}

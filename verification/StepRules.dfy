/** What one call of the machine answers, read off what it was shown: when it faults and
    what it then says, when an intent goes out and which, and when none does. */
module StepRules {
  import opened Model
  import opened Schedule
  import opened Timers
  import opened Guards
  import opened Machine
  import opened Moves
  import opened Pattern
  import opened Safety
  import Runs

  // ---------------------------------------------------------------- faults

  /** An eye at a processing station contradicts the map. */
  predicate EyesDisagree(s: LineState, sensors: Sensors) {
    exists st :: (st == F1 || st == O || st == F2) && (st in s.occupancy) != (st in sensors.occupied)
  }

  /** A station the train was sent to does not show its part. */
  predicate Unconfirmed(s: LineState, sensors: Sensors, st: Station) {
    st != OUT && st !in sensors.occupied && exists m :: m in s.inFlight && m.dst == st
  }

  predicate AnyUnconfirmed(s: LineState, sensors: Sensors) {
    exists st :: Unconfirmed(s, sensors, st)
  }

  predicate WrongRole(s: LineState) {
    s.PartAt(O).Some? && s.PartAt(O).value.role != Spec(s.beat).role
  }

  /** All work asked for so far has been reported done. */
  predicate Settled(s: LineState, inp: Inputs) {
    forall id :: id in s.pending ==> id in inp.completed
  }

  /** The causes of a fault, and there are no others: one reported from outside; eyes
      against the map, except while parts are between stations; and, once all work is
      done, an arrival not shown or a part of the wrong role in front of the robot. */
  predicate Trouble(s: LineState, inp: Inputs, cfg: Config) {
    || inp.fault.Some?
    || (s.phase != Moving && EyesDisagree(s, inp.sensors))
    || (Settled(s, inp) && s.phase == Moving && AnyUnconfirmed(s, inp.sensors))
    || (Settled(s, inp) && s.phase == RobotWork && WrongRole(Observed(s, inp, cfg)))
  }

  /** The reason given is the cause, the outside's first, then the eyes' from F1 on. */
  predicate Explains(reason: Reason, s: LineState, inp: Inputs, cfg: Config) {
    if inp.fault.Some? then reason == inp.fault.value
    else if s.phase != Moving && EyesDisagree(s, inp.sensors) then
      && reason.SensorMismatch? && reason.expected == (reason.station in s.occupancy)
      && reason.expected != (reason.station in inp.sensors.occupied)
      && (reason.station == F1
          || (reason.station == O && (F1 in s.occupancy) == (F1 in inp.sensors.occupied))
          || (reason.station == F2 && (F1 in s.occupancy) == (F1 in inp.sensors.occupied)
              && (O in s.occupancy) == (O in inp.sensors.occupied)))
    else if s.phase == Moving then
      reason.NotConfirmed? && forall st :: st in reason.missing <==> Unconfirmed(s, inp.sensors, st)
    else
      var part := Observed(s, inp, cfg).PartAt(O);
      part.Some? && reason == RoleMismatch(s.beat, part.value.partId)
  }

  lemma {:induction false} NothingRemains(pending: seq<nat>, completed: set<nat>)
    ensures Remaining(pending, completed) == [] <==> forall id :: id in pending ==> id in completed
  {
    if pending != [] {
      NothingRemains(pending[1..], completed);
      assert forall id :: id in pending <==> id == pending[0] || id in pending[1..];
    }
  }

  lemma MismatchIff(s: LineState, sensors: Sensors)
    ensures OccupancyMismatch(s, sensors).Some? <==> EyesDisagree(s, sensors)
  {
    if EyesDisagree(s, sensors) {
      var st :| (st == F1 || st == O || st == F2) && (st in s.occupancy) != (st in sensors.occupied);
      assert Disagrees(s, sensors, st);
    }
    if OccupancyMismatch(s, sensors).Some? {
      assert Disagrees(s, sensors, OccupancyMismatch(s, sensors).value.station);
    }
  }

  lemma MissingIff(s: LineState, sensors: Sensors)
    ensures forall st :: st in Arrivals(s.inFlight) - sensors.occupied <==> Unconfirmed(s, sensors, st)
    ensures Arrivals(s.inFlight) - sensors.occupied != {} <==> AnyUnconfirmed(s, sensors)
  {
    var missing := Arrivals(s.inFlight) - sensors.occupied;
    forall st ensures st in missing <==> Unconfirmed(s, sensors, st) {
    }
    if missing != {} {
      var st :| st in missing;
      assert Unconfirmed(s, sensors, st);
    }
  }

  /** What a call that enters a fault leaves: one halt with the fault's own reason, the
      phase remembered, fans, map and queue as they were, and nothing pending. */
  predicate FaultAnswer(s: LineState, inp: Inputs, cfg: Config, id: nat, r: StepResult) {
    && r.state.fault.Some? && r.blockedBy == r.state.fault && r.nextId == id + 1
    && r.intents == [HaltZones(id, r.state.fault.value)]
    && r.state.faultPhase == Some(s.phase) && r.state.pending == []
    && r.state.f1Fan == s.f1Fan && r.state.f2Fan == s.f2Fan
    && r.state.occupancy == s.occupancy && r.state.inQueue == s.inQueue && r.state.inFlight == s.inFlight
    && r.state.beat == s.beat && r.state.pairIndex == s.pairIndex && r.state.parts == AdvanceFlash(s, inp.dt, cfg)
    && Explains(r.state.fault.value, s, inp, cfg)
  }

  lemma DispatchFaults(o: LineState, sensors: Sensors, cfg: Config, id: nat)
    requires o.phase != Faulted && o.phase != RobotWork && o.phase != Moving
    ensures Dispatch(o, sensors, cfg, id).state.phase != Faulted
  {
  }

  lemma WorkFaults(o: LineState, sensors: Sensors, cfg: Config, id: nat)
    requires o.phase == RobotWork
    ensures
      var r := RobotWorkPhase(o, sensors, cfg, id);
      if WrongRole(o) then
        r == StepResult(o.(phase := Faulted, fault := Some(RoleMismatch(o.beat, o.PartAt(O).value.partId)),
                           faultPhase := Some(RobotWork), pending := []),
                        [HaltZones(id, RoleMismatch(o.beat, o.PartAt(O).value.partId))],
                        Some(RoleMismatch(o.beat, o.PartAt(O).value.partId)), id + 1)
      else r.state.phase != Faulted
  {
  }

  lemma MovingFaults(o: LineState, sensors: Sensors, cfg: Config, id: nat)
    requires o.phase == Moving
    ensures
      var r := MovingPhase(o, sensors, cfg, id);
      var missing := Arrivals(o.inFlight) - sensors.occupied;
      if AnyUnconfirmed(o, sensors) then
        r == StepResult(o.(phase := Faulted, fault := Some(NotConfirmed(missing)), faultPhase := Some(Moving), pending := []),
                        [HaltZones(id, NotConfirmed(missing))], Some(NotConfirmed(missing)), id + 1)
      else r.state.phase != Faulted
  {
    MissingIff(o, sensors);
  }

  lemma SameTrouble(s: LineState, inp: Inputs, cfg: Config)
    ensures
      var o := Observed(s, inp, cfg);
      && (EyesDisagree(o, inp.sensors) <==> EyesDisagree(s, inp.sensors))
      && (forall st :: Unconfirmed(o, inp.sensors, st) <==> Unconfirmed(s, inp.sensors, st))
      && (AnyUnconfirmed(o, inp.sensors) <==> AnyUnconfirmed(s, inp.sensors))
      && (o.pending == [] <==> Settled(s, inp))
  {
    var o := Observed(s, inp, cfg);
    NothingRemains(s.pending, inp.completed);
    MismatchIff(s, inp.sensors);
    MismatchIff(o, inp.sensors);
    MissingIff(s, inp.sensors);
    MissingIff(o, inp.sensors);
  }

  predicate NoHalt(r: StepResult) {
    r.state.phase != Faulted && forall i :: 0 <= i < |r.intents| ==> !r.intents[i].HaltZones?
  }

  lemma WorkSaysNoHalt(o: LineState, sensors: Sensors, cfg: Config, id: nat)
    requires o.phase == RobotWork && !WrongRole(o)
    ensures NoHalt(RobotWorkPhase(o, sensors, cfg, id))
  {
  }

  lemma MovingSaysNoHalt(o: LineState, sensors: Sensors, cfg: Config, id: nat)
    requires o.phase == Moving && !AnyUnconfirmed(o, sensors)
    ensures NoHalt(MovingPhase(o, sensors, cfg, id))
  {
    MissingIff(o, sensors);
  }

  lemma DispatchSaysNoHalt(o: LineState, sensors: Sensors, cfg: Config, id: nat)
    requires o.phase != Faulted && (o.phase == RobotWork ==> !WrongRole(o)) && (o.phase == Moving ==> !AnyUnconfirmed(o, sensors))
    ensures NoHalt(Dispatch(o, sensors, cfg, id))
  {
    if o.phase == RobotWork {
      WorkSaysNoHalt(o, sensors, cfg, id);
    } else if o.phase == Moving {
      MovingSaysNoHalt(o, sensors, cfg, id);
    }
  }

  /** Settled and untroubled, a call acts on what it has observed. */
  lemma Acts(s: LineState, inp: Inputs, cfg: Config, id: nat)
    requires s.phase != Faulted && Settled(s, inp) && inp.fault.None? && (s.phase != Moving ==> !EyesDisagree(s, inp.sensors))
    ensures Step(s, inp, cfg, id) == Dispatch(Observed(s, inp, cfg), inp.sensors, cfg, id)
    ensures Observed(s, inp, cfg).pending == []
  {
    SameTrouble(s, inp, cfg);
    MismatchIff(Observed(s, inp, cfg), inp.sensors);
  }

  lemma UntroubledGoesOn(s: LineState, inp: Inputs, cfg: Config, id: nat)
    requires s.phase != Faulted && !Trouble(s, inp, cfg)
    ensures NoHalt(Step(s, inp, cfg, id))
  {
    var o := Observed(s, inp, cfg);
    SameTrouble(s, inp, cfg);
    if Settled(s, inp) {
      Acts(s, inp, cfg, id);
      DispatchSaysNoHalt(o, inp.sensors, cfg, id);
    } else {
      UnsettledWaits(s, inp, cfg, id);
    }
  }

  /** A fault reported, or eyes that disagree, stop the machine before anything else. */
  lemma SeenTroubleFaults(s: LineState, inp: Inputs, cfg: Config, id: nat)
    requires s.phase != Faulted && (inp.fault.Some? || (s.phase != Moving && EyesDisagree(s, inp.sensors)))
    ensures
      var r := Step(s, inp, cfg, id);
      r.state.phase == Faulted && FaultAnswer(s, inp, cfg, id, r)
  {
    SameTrouble(s, inp, cfg);
    MismatchIff(Observed(s, inp, cfg), inp.sensors);
  }

  lemma FoundTroubleFaults(s: LineState, inp: Inputs, cfg: Config, id: nat)
    requires s.phase != Faulted && Settled(s, inp) && inp.fault.None? && (s.phase != Moving ==> !EyesDisagree(s, inp.sensors))
    requires (s.phase == Moving && AnyUnconfirmed(s, inp.sensors)) || (s.phase == RobotWork && WrongRole(Observed(s, inp, cfg)))
    ensures
      var r := Step(s, inp, cfg, id);
      r.state.phase == Faulted && FaultAnswer(s, inp, cfg, id, r)
  {
    var o := Observed(s, inp, cfg);
    Acts(s, inp, cfg, id);
    SameTrouble(s, inp, cfg);
    MissingIff(o, inp.sensors);
    if s.phase == Moving {
      MovingFaults(o, inp.sensors, cfg, id);
    } else {
      WorkFaults(o, inp.sensors, cfg, id);
    }
  }

  /** A call faults exactly when there is trouble, and then answers with exactly the halt. */
  lemma FaultsExactly(s: LineState, inp: Inputs, cfg: Config, id: nat)
    requires s.phase != Faulted
    ensures
      var r := Step(s, inp, cfg, id);
      if Trouble(s, inp, cfg) then r.state.phase == Faulted && FaultAnswer(s, inp, cfg, id, r) else NoHalt(r)
  {
    if !Trouble(s, inp, cfg) {
      UntroubledGoesOn(s, inp, cfg, id);
    } else if inp.fault.Some? || (s.phase != Moving && EyesDisagree(s, inp.sensors)) {
      SeenTroubleFaults(s, inp, cfg, id);
    } else {
      FoundTroubleFaults(s, inp, cfg, id);
    }
  }

  /** While faulted a call banks time and says nothing, also to a further report. */
  lemma FaultedWaits(s: LineState, inp: Inputs, cfg: Config, id: nat)
    requires s.phase == Faulted
    ensures
      var r := Step(s, inp, cfg, id);
      && r.intents == [] && r.nextId == id && r.blockedBy == s.fault
      && r.state == s.(parts := AdvanceFlash(s, inp.dt, cfg), pending := r.state.pending)
  {
  }

  /** While work is outstanding, and nothing is wrong, a call banks time and waits. */
  lemma UnsettledWaits(s: LineState, inp: Inputs, cfg: Config, id: nat)
    requires s.phase != Faulted && !Trouble(s, inp, cfg) && !Settled(s, inp)
    ensures
      var r := Step(s, inp, cfg, id);
      && r.intents == [] && r.nextId == id && r.blockedBy == None
      && r.state == s.(parts := AdvanceFlash(s, inp.dt, cfg), pending := r.state.pending)
  {
    SameTrouble(s, inp, cfg);
    MismatchIff(Observed(s, inp, cfg), inp.sensors);
  }

  // ------------------------------------------------------------ robot work

  /** Coat 1 in the first two beats, coat 2 in the last two. */
  function Due(b: Beat): nat {
    if b == P1 || b == P2 then 1 else 2
  }

  /** The robot can start: a part at O that lacks the beat's coat, seen there, behind a
      closed shutter. */
  predicate CanCoat(o: LineState, sensors: Sensors) {
    && o.PartAt(O).Some? && o.PartAt(O).value.coats < Due(o.beat)
    && sensors.shutter == Closed && O in sensors.occupied
  }

  /** A wet part under the fan of P3. */
  predicate WetUnderFan(o: LineState) {
    o.beat == P3 && o.PartAt(F1).Some? && o.PartAt(F1).value.isWet
  }

  /** The batch for one coat: prepare, by sanding before coat 1 and cleaning the gun
      before coat 2; spray, the F1 fan off around it over a wet part; and withdraw. */
  predicate IsBatch(w: seq<Intent>, o: LineState, pid: PartId, id: nat) {
    var n := if WetUnderFan(o) then 5 else 3;
    && |w| == n && w[n - 1] == MoveToSafePose(id + n - 1)
    && w[0] == (if Due(o.beat) == 1 then SandPart(id, pid) else CleanGun(id, pid))
    && (if WetUnderFan(o) then
          w[1] == SetFan(id + 1, F1, false) && w[2] == SprayPart(id + 2, pid, Due(o.beat)) && w[3] == SetFan(id + 3, F1, true)
        else w[1] == SprayPart(id + 1, pid, Due(o.beat)))
  }

  predicate Numbered(r: StepResult, id: nat) {
    r.state.pending == Ids(r.intents) && r.nextId == id + |r.intents|
  }

  predicate Silent(r: StepResult, t: LineState, id: nat) {
    r.intents == [] && r.nextId == id && r.state == t
  }

  /** What the full spray interlock asks, called or not: a closed shutter, a part seen and
      recorded at O, and no running fan over a wet part upstream. */
  lemma InterlockMeans(s: LineState, sensors: Sensors)
    ensures SprayBlocked(s, sensors).None? <==>
      && sensors.shutter == Closed && O in sensors.occupied && s.PartAt(O).Some?
      && !(s.PartAt(F1).Some? && s.PartAt(F1).value.isWet && sensors.f1Fan)
  {
  }

  lemma BatchIs(o: LineState, pid: PartId, id: nat)
    ensures IsBatch(WorkBatch(o, pid, id), o, pid, id)
  {
  }

  lemma WorkCoats(o: LineState, sensors: Sensors, cfg: Config, id: nat)
    requires o.phase == RobotWork && o.pending == [] && !WrongRole(o) && CanCoat(o, sensors)
    ensures
      var r := RobotWorkPhase(o, sensors, cfg, id);
      var part := o.PartAt(O).value;
      && IsBatch(r.intents, o, part.partId, id) && Numbered(r, id) && r.blockedBy == None
      && r.state == o.(phase := AwaitGuards, pending := r.state.pending,
                       parts := o.parts[part.partId := part.(coats := Due(o.beat), isWet := true)])
  {
    BatchIs(o, o.PartAt(O).value.partId, id);
    assert o.pending + Ids(WorkBatch(o, o.PartAt(O).value.partId, id)) == Ids(WorkBatch(o, o.PartAt(O).value.partId, id));
  }

  lemma WorkPasses(o: LineState, sensors: Sensors, cfg: Config, id: nat)
    requires o.phase == RobotWork && o.pending == [] && !WrongRole(o) && !CanCoat(o, sensors)
    ensures
      var r := RobotWorkPhase(o, sensors, cfg, id);
      var nothingHere := o.occupancy == map[] && o.inQueue == [];
      var coatOwed := o.PartAt(O).Some? && o.PartAt(O).value.coats < Due(o.beat);
      if nothingHere || coatOwed then Silent(r, o, id) && r.blockedBy.Some?
      else Silent(r, o.(phase := AwaitGuards), id) && r.blockedBy == None
  {
  }

  /** Robot work, settled and untroubled: the whole batch goes out exactly when the robot
      can start; otherwise nothing does, and the machine goes on only past a part that
      owes this beat no coat, or none. */
  lemma WorkAnswers(s: LineState, inp: Inputs, cfg: Config, id: nat)
    requires s.phase == RobotWork && Settled(s, inp) && !Trouble(s, inp, cfg)
    ensures
      var o, r := Observed(s, inp, cfg), Step(s, inp, cfg, id);
      var nothingHere := o.occupancy == map[] && o.inQueue == [];
      var coatOwed := o.PartAt(O).Some? && o.PartAt(O).value.coats < Due(o.beat);
      if CanCoat(o, inp.sensors) then
        var part := o.PartAt(O).value;
        && IsBatch(r.intents, o, part.partId, id) && Numbered(r, id) && r.blockedBy == None
        && r.state == o.(phase := AwaitGuards, pending := r.state.pending,
                         parts := o.parts[part.partId := part.(coats := Due(o.beat), isWet := true)])
      else if nothingHere || coatOwed then Silent(r, o, id) && r.blockedBy.Some?
      else Silent(r, o.(phase := AwaitGuards), id) && r.blockedBy == None
  {
    var o := Observed(s, inp, cfg);
    Acts(s, inp, cfg, id);
    if CanCoat(o, inp.sensors) {
      WorkCoats(o, inp.sensors, cfg, id);
    } else {
      WorkPasses(o, inp.sensors, cfg, id);
    }
  }

  // ------------------------------------------------------------- departure

  /** The train may leave: robot away, gun off, a part at the queue's eye if one is to be
      fed, nobody on the outfeed if one is to leave, free ground for every move, and no
      fan left before its flash is done. */
  predicate Clear(o: LineState, sensors: Sensors, cfg: Config) {
    && sensors.robotClear && !sensors.gunOn
    && (Feeds(o) ==> sensors.inEye) && (SendsOut(o) ==> !sensors.outEye)
    && !Collides(LiveMoves(o), sensors.occupied)
    && (forall m :: m in LiveMoves(o) ==> !UnderFlashed(o, cfg, m))
  }

  predicate Feeds(o: LineState) {
    exists m :: m in LiveMoves(o) && m.src == IN
  }

  predicate SendsOut(o: LineState) {
    exists m :: m in LiveMoves(o) && m.dst == OUT
  }

  /** The reason shown for holding the train is a true one, and the checks before it in
      order passed: the shutter, the robot, the gun, the queue's eye, the outfeed, and
      then the moves. */
  predicate HoldsTrue(reason: Reason, o: LineState, sensors: Sensors, cfg: Config) {
    match reason
    case ShutterNotOpen => sensors.shutter != Open
    case RobotNotClear => !sensors.robotClear
    case GunLive => sensors.robotClear && sensors.gunOn
    case QueueHeadEmpty => sensors.robotClear && !sensors.gunOn && !sensors.inEye && Feeds(o)
    case OutfeedOccupied => EyesPass(o, sensors, false) && sensors.outEye && SendsOut(o)
    case DestinationOccupied(st) =>
      EyesPass(o, sensors, true) && st in sensors.occupied && exists m :: m in LiveMoves(o) && m.dst == st != OUT
    case FlashOwed(pid, at) =>
      && EyesPass(o, sensors, true)
      && (at == F1 || at == F2) && o.PartAt(at).Some? && o.PartAt(at).value.partId == pid
      && !MayLeaveFan(o.PartAt(at).value, cfg) && exists m :: m in LiveMoves(o) && m.src == at
    case _ => false
  }

  predicate EyesPass(o: LineState, sensors: Sensors, outToo: bool) {
    && sensors.robotClear && !sensors.gunOn && (Feeds(o) ==> sensors.inEye)
    && (outToo && SendsOut(o) ==> !sensors.outEye)
  }

  lemma FeedAndOut(o: LineState)
    ensures Move(IN, F1) in LiveMoves(o) <==> Feeds(o)
    ensures Move(F2, OUT) in LiveMoves(o) <==> SendsOut(o)
  {
    forall m | m in LiveMoves(o) ensures (m.src == IN ==> m == Move(IN, F1)) && (m.dst == OUT ==> m == Move(F2, OUT)) {
      LiveIs(o, m);
    }
  }

  lemma LiveWellOrdered(o: LineState)
    ensures WellOrdered(LiveMoves(o))
  {
    ScheduleIsWellOrdered(o.beat);
    FilterWellOrdered(o, TransitionMoves(o.beat));
  }

  lemma ClearIff(o: LineState, sensors: Sensors, cfg: Config)
    ensures DepartureBlocked(o, sensors, cfg, LiveMoves(o)).None? <==> Clear(o, sensors, cfg)
  {
    FeedAndOut(o);
    LiveWellOrdered(o);
    WalkRejectsExactly(o, cfg, LiveMoves(o), sensors.occupied);
  }

  /** What the walk gives as its reason is so. */
  lemma {:induction false} WalkTrue(o: LineState, cfg: Config, moves: seq<Move>, occupied: set<Station>)
    requires WellOrdered(moves)
    ensures
      var b := WalkBlocked(o, cfg, moves, occupied);
      b.Some? ==>
        if b.value.DestinationOccupied? then
          b.value.station in occupied && exists m :: m in moves && m.dst == b.value.station != OUT
        else
          && b.value.FlashOwed? && (b.value.at == F1 || b.value.at == F2) && o.PartAt(b.value.at).Some?
          && o.PartAt(b.value.at).value.partId == b.value.part && !MayLeaveFan(o.PartAt(b.value.at).value, cfg)
          && exists m :: m in moves && m.src == b.value.at
  {
    if moves != [] {
      var m, rest := moves[0], moves[1..];
      var vacated := occupied - {m.src};
      var next := if m.dst == OUT then vacated else vacated + {m.dst};
      WalkTrue(o, cfg, rest, next);
      assert m in moves && forall x :: x in rest ==> x in moves;
      forall x | x in rest ensures x.dst != m.dst {
        var k :| 0 <= k < |rest| && rest[k] == x;
        assert moves[k + 1] == x;
      }
    }
  }

  lemma BlockedTruly(o: LineState, sensors: Sensors, cfg: Config)
    ensures
      var b := DepartureBlocked(o, sensors, cfg, LiveMoves(o));
      b.Some? ==> HoldsTrue(b.value, o, sensors, cfg)
  {
    FeedAndOut(o);
    LiveWellOrdered(o);
    WalkTrue(o, cfg, LiveMoves(o), sensors.occupied);
  }

  /** At the guard, settled and untroubled: on exactly when the train may leave; held with
      a true reason otherwise, and nothing goes out. */
  lemma GuardAnswers(s: LineState, inp: Inputs, cfg: Config, id: nat)
    requires s.phase == AwaitGuards && Settled(s, inp) && !Trouble(s, inp, cfg)
    ensures
      var o, r := Observed(s, inp, cfg), Step(s, inp, cfg, id);
      if Clear(o, inp.sensors, cfg) then Silent(r, o.(phase := ShutterOpen), id) && r.blockedBy == None
      else Silent(r, o, id) && r.blockedBy.Some? && HoldsTrue(r.blockedBy.value, o, inp.sensors, cfg)
  {
    var o := Observed(s, inp, cfg);
    Acts(s, inp, cfg, id);
    ClearIff(o, inp.sensors, cfg);
    BlockedTruly(o, inp.sensors, cfg);
  }

  /** Where the stations lie along the belts. */
  function Along(st: Station): nat {
    match st case IN => 0 case F1 => 1 case O => 2 case F2 => 3 case OUT => 4
  }

  /** Every part goes the way the belts turn. */
  predicate GoesAlong(d: Direction, moves: seq<Move>) {
    forall m :: m in moves ==> if d == Downstream then Along(m.src) < Along(m.dst) else Along(m.src) > Along(m.dst)
  }

  lemma LiveGoAlong(o: LineState)
    ensures GoesAlong(TransitionDirection(o.beat), LiveMoves(o))
  {
    forall m | m in LiveMoves(o)
      ensures if TransitionDirection(o.beat) == Downstream then Along(m.src) < Along(m.dst) else Along(m.src) > Along(m.dst)
    {
      LiveIs(o, m);
    }
  }

  /** One train: all of the beat's live moves, the way they go. */
  predicate IsTrain(r: StepResult, o: LineState, id: nat) {
    && |r.intents| == 1 && r.intents[0].AdvanceTrain? && r.intents[0].id == id
    && r.intents[0].moves == LiveMoves(o) && GoesAlong(r.intents[0].direction, LiveMoves(o))
    && r.state == o.(inFlight := LiveMoves(o), pending := [id]) && r.nextId == id + 1 && r.blockedBy == None
  }

  lemma LaunchAnswers(o: LineState, sensors: Sensors, cfg: Config, id: nat)
    requires o.phase == Moving && o.inFlight == [] && o.pending == []
    ensures
      var r := MovingPhase(o, sensors, cfg, id);
      if LiveMoves(o) == [] then Silent(r, o.(phase := ShutterClose), id) && r.blockedBy == None
      else if sensors.shutter == Open && Clear(o, sensors, cfg) then IsTrain(r, o, id)
      else
        && Silent(r, o, id) && r.blockedBy.Some? && HoldsTrue(r.blockedBy.value, o, sensors, cfg)
        && (r.blockedBy.value.ShutterNotOpen? <==> sensors.shutter != Open)
  {
    LiveGoAlong(o);
    ClearIff(o, sensors, cfg);
    BlockedTruly(o, sensors, cfg);
    assert Ids([AdvanceTrain(id, TransitionDirection(o.beat), LiveMoves(o))]) == [id];
  }

  /** The move phase, settled and untroubled. With nothing in flight the train goes out
      exactly when the shutter is seen open and the train may leave, all over again; with
      arrivals confirmed the map moves as one and nothing goes out. */
  lemma MoveAnswers(s: LineState, inp: Inputs, cfg: Config, id: nat)
    requires s.phase == Moving && Settled(s, inp) && !Trouble(s, inp, cfg)
    ensures
      var o, r := Observed(s, inp, cfg), Step(s, inp, cfg, id);
      if o.inFlight != [] then
        Silent(r, Machine.Shifted(o, o.inFlight).(inFlight := [], phase := ShutterClose), id) && r.blockedBy == None
      else if LiveMoves(o) == [] then Silent(r, o.(phase := ShutterClose), id) && r.blockedBy == None
      else if inp.sensors.shutter == Open && Clear(o, inp.sensors, cfg) then IsTrain(r, o, id)
      else
        && Silent(r, o, id) && r.blockedBy.Some? && HoldsTrue(r.blockedBy.value, o, inp.sensors, cfg)
        && (r.blockedBy.value.ShutterNotOpen? <==> inp.sensors.shutter != Open)
  {
    var o := Observed(s, inp, cfg);
    Acts(s, inp, cfg, id);
    SameTrouble(s, inp, cfg);
    MissingIff(o, inp.sensors);
    if o.inFlight == [] {
      LaunchAnswers(o, inp.sensors, cfg, id);
    }
  }

  // ------------------------------------------------------ shutter and fans

  lemma ShutterAnswers(s: LineState, inp: Inputs, cfg: Config, id: nat)
    requires s.phase == ShutterOpen || s.phase == ShutterClose
    requires Settled(s, inp) && !Trouble(s, inp, cfg)
    ensures
      var o, r := Observed(s, inp, cfg), Step(s, inp, cfg, id);
      && r.intents == [SetShutter(id, if s.phase == ShutterOpen then Open else Closed)] && r.nextId == id + 1
      && r.state == o.(phase := if s.phase == ShutterOpen then Moving else SetFans, pending := [id]) && r.blockedBy == None
  {
    Acts(s, inp, cfg, id);
    assert Ids([SetShutter(id, Open)]) == [id] && Ids([SetShutter(id, Closed)]) == [id];
  }

  /** The beat after: 1, 2, 3, 4 and 1 again. */
  function BeatAfter(b: Beat): Beat {
    if b == P1 then P2 else if b == P2 then P3 else if b == P3 then P4 else P1
  }

  /** The next beat's fans, each only over an occupied station: F1's in the third beat
      and F2's in the others. A new pair begins with the first beat. */
  lemma FansAnswer(s: LineState, inp: Inputs, cfg: Config, id: nat)
    requires s.phase == SetFans && Settled(s, inp) && !Trouble(s, inp, cfg)
    ensures
      var o, r := Observed(s, inp, cfg), Step(s, inp, cfg, id);
      var b := BeatAfter(s.beat);
      var f1, f2 := b == P3 && s.Holds(F1), b != P3 && s.Holds(F2);
      && r.intents == [SetFan(id, F1, f1), SetFan(id + 1, F2, f2)] && r.nextId == id + 2 && r.blockedBy == None
      && r.state == o.(phase := RobotWork, beat := b, pairIndex := s.pairIndex + (if s.beat == P4 then 1 else 0),
                       f1Fan := f1, f2Fan := f2, shutter := Closed, pending := [id, id + 1])
  {
    Acts(s, inp, cfg, id);
    var f1, f2 := BeatAfter(s.beat) == P3 && s.Holds(F1), BeatAfter(s.beat) != P3 && s.Holds(F2);
    assert Ids([SetFan(id, F1, f1), SetFan(id + 1, F2, f2)]) == [id, id + 1];
  }

  // ------------------------------------------------------------- recovery

  /** The map a recovery goes on from: what was confirmed, or what was believed. */
  function Adopted(s: LineState, confirmed: Option<map<Station, PartId>>): map<Station, PartId> {
    if confirmed.Some? then confirmed.value else s.occupancy
  }

  predicate MidAdvance(s: LineState) {
    s.faultPhase == Some(Moving) && s.inFlight != []
  }

  /** The move was under way and the map adopted is the one it leads to. */
  predicate HasMoved(s: LineState, m: map<Station, PartId>) {
    MidAdvance(s) && m == Machine.Shifted(s, s.inFlight).occupancy
  }

  /** Where work goes on: behind a move that happened or whose shutter was closing, at the
      guard of one that did not, otherwise with the robot's work. */
  function GoesOnAt(s: LineState, m: map<Station, PartId>): Phase {
    if s.faultPhase == Some(ShutterClose) || s.faultPhase == Some(SetFans) || HasMoved(s, m) then ShutterClose
    else if MidAdvance(s) && m == s.occupancy then AwaitGuards
    else RobotWork
  }

  lemma ShiftIgnoresFault(s: LineState)
    ensures
      var t := Machine.Shifted(s.(fault := None), s.inFlight);
      t == Machine.Shifted(s, s.inFlight).(fault := None)
  {
  }

  lemma ReentryIs(s: LineState, m: map<Station, PartId>, b: Beat)
    ensures
      var (base, target) := Reentry(s, m, b);
      var moved := Machine.Shifted(s, s.inFlight);
      && target == GoesOnAt(s, m)
      && base.(fault := None) == (if HasMoved(s, m) then s.(inQueue := moved.inQueue, parts := moved.parts)
                                  else s).(occupancy := m, beat := b, fault := None)
  {
    ShiftIgnoresFault(s);
  }

  lemma AdoptedEyes(s: LineState, m: map<Station, PartId>, t: LineState, sensors: Sensors)
    requires t.occupancy == m
    ensures OccupancyMismatch(t, sensors).Some? <==> EyesDisagree(s.(occupancy := m), sensors)
  {
    MismatchIff(t, sensors);
    MismatchIff(s.(occupancy := m), sensors);
  }

  /** An acknowledgement outside a fault does nothing. In a fault it is accepted exactly
      when the eyes agree with the map adopted: then one homing goes out and nothing else
      is pending or in flight, the beat is the one given, if one was, and queue and
      parts are as they were but for a move that has happened. Refused, it leaves the
      map adopted and the fault standing. */
  lemma ResumeAnswers(s: LineState, sensors: Sensors, confirmed: Option<map<Station, PartId>>, beat: Option<Beat>, id: nat)
    ensures
      var r, m := Resume(s, sensors, confirmed, beat, id), Adopted(s, confirmed);
      var moved := Machine.Shifted(s, s.inFlight);
      if s.phase != Faulted then Silent(r, s, id) && r.blockedBy == Some(NotFaulted)
      else if EyesDisagree(s.(occupancy := m), sensors) then
        r.intents == [] && r.state == s.(occupancy := m) && r.nextId == id + 1 && r.blockedBy.Some? && r.blockedBy.value.ResumeRejected?
      else
        && r.intents == [MoveToSafePose(id)] && r.nextId == id + 1 && r.blockedBy == None
        && r.state == (if HasMoved(s, m) then s.(inQueue := moved.inQueue, parts := moved.parts) else s)
             .(occupancy := m, beat := if beat.Some? then beat.value else s.beat, phase := GoesOnAt(s, m),
               fault := None, faultPhase := None, pending := [id], inFlight := [])
  {
    if s.phase == Faulted {
      var m, b := Adopted(s, confirmed), if beat.Some? then beat.value else s.beat;
      ReentryIs(s, m, b);
      var (base, target) := Reentry(s, m, b);
      AdoptedEyes(s, m, base.(phase := target, fault := None, faultPhase := None, pending := [id], inFlight := []), sensors);
    }
  }

  // ---------------------------------------------------- what every intent meets

  /** What must be seen, and be so, for an intent to go out. */
  predicate Warranted(i: Intent, o: LineState, sensors: Sensors, cfg: Config) {
    match i
    case SprayPart(id, pid, coat) =>
      CanCoat(o, sensors) && coat == Due(o.beat) && o.PartAt(O).value.partId == pid && o.PartAt(O).value.role == Spec(o.beat).role
    case SandPart(id, pid) => CanCoat(o, sensors) && Due(o.beat) == 1 && o.PartAt(O).value.partId == pid
    case CleanGun(id, pid) => CanCoat(o, sensors) && Due(o.beat) == 2 && o.PartAt(O).value.partId == pid
    case MoveToSafePose(id) => CanCoat(o, sensors)
    case SetShutter(id, target) => o.phase == (if target == Open then ShutterOpen else ShutterClose)
    case AdvanceTrain(id, direction, moves) =>
      sensors.shutter == Open && Clear(o, sensors, cfg) && moves == LiveMoves(o) != [] && GoesAlong(direction, moves)
    case SetFan(id, st, on) => (st == F1 || st == F2) && (on ==> o.Holds(st))
    case HaltZones(id, reason) => true
  }

  /** Over every call, whatever it is shown: nothing is asked of the line without its
      warrant. */
  lemma IntentsWarranted(s: LineState, inp: Inputs, cfg: Config, id: nat, i: Intent)
    requires i in Step(s, inp, cfg, id).intents
    ensures Warranted(i, Observed(s, inp, cfg), inp.sensors, cfg)
    ensures i.HaltZones? <==> s.phase != Faulted && Trouble(s, inp, cfg)
  {
    if s.phase == Faulted {
      FaultedWaits(s, inp, cfg, id);
    } else {
      FaultsExactly(s, inp, cfg, id);
      if !Trouble(s, inp, cfg) {
        ActingWarranted(s, inp, cfg, id, i);
      }
    }
  }

  lemma BatchWarranted(w: seq<Intent>, o: LineState, sensors: Sensors, cfg: Config, id: nat, i: Intent)
    requires CanCoat(o, sensors) && !WrongRole(o) && IsBatch(w, o, o.PartAt(O).value.partId, id) && i in w
    ensures Warranted(i, o, sensors, cfg)
  {
  }

  lemma WorkWarranted(s: LineState, inp: Inputs, cfg: Config, id: nat, i: Intent)
    requires s.phase == RobotWork && Settled(s, inp) && !Trouble(s, inp, cfg) && i in Step(s, inp, cfg, id).intents
    ensures Warranted(i, Observed(s, inp, cfg), inp.sensors, cfg)
  {
    WorkAnswers(s, inp, cfg, id);
    BatchWarranted(Step(s, inp, cfg, id).intents, Observed(s, inp, cfg), inp.sensors, cfg, id, i);
  }

  lemma MoveWarranted(s: LineState, inp: Inputs, cfg: Config, id: nat, i: Intent)
    requires s.phase == Moving && Settled(s, inp) && !Trouble(s, inp, cfg) && i in Step(s, inp, cfg, id).intents
    ensures Warranted(i, Observed(s, inp, cfg), inp.sensors, cfg)
  {
    MoveAnswers(s, inp, cfg, id);
  }

  lemma ActingWarranted(s: LineState, inp: Inputs, cfg: Config, id: nat, i: Intent)
    requires s.phase != Faulted && !Trouble(s, inp, cfg) && i in Step(s, inp, cfg, id).intents
    ensures Warranted(i, Observed(s, inp, cfg), inp.sensors, cfg)
  {
    if !Settled(s, inp) {
      UnsettledWaits(s, inp, cfg, id);
    } else {
      match s.phase
      case RobotWork => WorkWarranted(s, inp, cfg, id, i);
      case AwaitGuards => GuardAnswers(s, inp, cfg, id);
      case ShutterOpen => ShutterAnswers(s, inp, cfg, id);
      case Moving => MoveWarranted(s, inp, cfg, id, i);
      case ShutterClose => ShutterAnswers(s, inp, cfg, id);
      case SetFans => FansAnswer(s, inp, cfg, id);
    }
  }
}

/** The state machine: `Step` takes a state and one observation and returns the
    new state plus intents; `Resume` is the operator-acknowledged recovery. */
module Machine {
  import opened Model
  import opened Schedule
  import opened Timers
  import opened Guards

  // ---------------------------------------------------------------- moves

  /** What a train advance rearranges. */
  datatype Layout = Layout(
    occupancy: map<Station, PartId>,
    inQueue: seq<PartId>,
    parts: map<PartId, PartState>)

  predicate IsLive(s: LineState, m: Move) {
    (m.src == IN && s.inQueue != []) || s.Holds(m.src)
  }

  function Filter(s: LineState, moves: seq<Move>): seq<Move> {
    if moves == [] then []
    else (if IsLive(s, moves[0]) then [moves[0]] else []) + Filter(s, moves[1..])
  }

  /** This beat's transition, minus moves whose source is empty. */
  function LiveMoves(s: LineState): seq<Move> {
    Filter(s, TransitionMoves(s.beat))
  }

  function ApplyMove(l: Layout, m: Move): Layout {
    if m.src == IN then
      if l.inQueue == [] then l
      else Deliver(l.(inQueue := l.inQueue[1..]), l.inQueue[0], m.dst)
    else if m.src in l.occupancy then
      Deliver(l.(occupancy := l.occupancy - {m.src}), l.occupancy[m.src], m.dst)
    else l
  }

  function Deliver(l: Layout, part: PartId, dst: Station): Layout {
    if dst == OUT then l.(parts := l.parts - {part})
    else l.(occupancy := l.occupancy[dst := part])
  }

  function ApplyMoves(l: Layout, moves: seq<Move>): Layout
    decreases |moves|
  {
    if moves == [] then l else ApplyMoves(ApplyMove(l, moves[0]), moves[1..])
  }

  function LayoutOf(s: LineState): Layout {
    Layout(s.occupancy, s.inQueue, s.parts)
  }

  function WithLayout(s: LineState, l: Layout): LineState {
    s.(occupancy := l.occupancy, inQueue := l.inQueue, parts := l.parts)
  }

  function Shifted(s: LineState, moves: seq<Move>): LineState {
    WithLayout(s, ApplyMoves(LayoutOf(s), moves))
  }

  /** The shift as the original runs it: local copies updated move by move. */
  method ShiftInPlace(s: LineState, moves: seq<Move>) returns (r: LineState)
    ensures r == Shifted(s, moves)
  {
    var occupancy, inQueue, parts := s.occupancy, s.inQueue, s.parts;
    for i := 0 to |moves|
      invariant ApplyMoves(LayoutOf(s), moves) == ApplyMoves(Layout(occupancy, inQueue, parts), moves[i..])
    {
      var m := moves[i];
      assert moves[i..][0] == m && moves[i..][1..] == moves[i + 1..];
      var part: PartId;
      if m.src == IN {
        if inQueue == [] { continue; }
        part, inQueue := inQueue[0], inQueue[1..];
      } else {
        if m.src !in occupancy { continue; }
        part, occupancy := occupancy[m.src], occupancy - {m.src};
      }
      if m.dst == OUT {
        parts := parts - {part};
        continue;
      }
      occupancy := occupancy[m.dst := part];
    }
    r := s.(occupancy := occupancy, inQueue := inQueue, parts := parts);
  }

  // ----------------------------------------------------------------- step

  function Stay(s: LineState, blocked: Option<Reason>, id: nat): StepResult {
    StepResult(s, [], blocked, id)
  }

  /** Halt zones; fans keep running so parts mid-flash keep drying. */
  function EnterFault(s: LineState, reason: Reason, id: nat): StepResult {
    if s.phase == Faulted then Stay(s, s.fault, id)
    else
      StepResult(
        s.(phase := Faulted, fault := Some(reason), faultPhase := Some(s.phase), pending := []),
        [HaltZones(id, reason)], Some(reason), id + 1)
  }

  function Ids(intents: seq<Intent>): seq<nat> {
    seq(|intents|, i requires 0 <= i < |intents| => intents[i].id)
  }

  function Emit(s: LineState, next: Phase, intents: seq<Intent>, id: nat): StepResult {
    StepResult(s.(phase := next, pending := s.pending + Ids(intents)), intents, None, id + |intents|)
  }

  function Remaining(pending: seq<nat>, completed: set<nat>): seq<nat> {
    if pending == [] then []
    else (if pending[0] in completed then [] else [pending[0]]) + Remaining(pending[1..], completed)
  }

  /** Timers advance on every step, faulted or not; then completions land. */
  function Observed(s: LineState, inp: Inputs, cfg: Config): LineState {
    s.(parts := AdvanceFlash(s, inp.dt, cfg), pending := Remaining(s.pending, inp.completed))
  }

  function Step(s0: LineState, inp: Inputs, cfg: Config, id: nat): StepResult {
    var s := Observed(s0, inp, cfg);
    if inp.fault.Some? then EnterFault(s, inp.fault.value, id)
    else if s.phase == Faulted then Stay(s, s.fault, id)
    else if s.phase != Moving && OccupancyMismatch(s, inp.sensors).Some? then
      EnterFault(s, OccupancyMismatch(s, inp.sensors).value, id)
    else if s.pending != [] then Stay(s, None, id)
    else Dispatch(s, inp.sensors, cfg, id)
  }

  function Dispatch(s: LineState, sensors: Sensors, cfg: Config, id: nat): StepResult {
    match s.phase
    case RobotWork => RobotWorkPhase(s, sensors, cfg, id)
    case AwaitGuards => AwaitGuardsPhase(s, sensors, cfg, id)
    case ShutterOpen => Emit(s, Moving, [SetShutter(id, Open)], id)
    case Moving => MovingPhase(s, sensors, cfg, id)
    case ShutterClose => Emit(s, SetFans, [SetShutter(id, Closed)], id)
    case SetFans => SetFansPhase(s, id)
    case Faulted => EnterFault(s, UnreachablePhase, id)
  }

  /** The F1 fan pauses around the burst when a wet part stands under it. */
  predicate Pausing(s: LineState) {
    Spec(s.beat).f1Fan && s.PartAt(F1).Some? && s.PartAt(F1).value.isWet
  }

  function WorkBatch(s: LineState, part: PartId, id: nat): seq<Intent> {
    var spec := Spec(s.beat);
    var prep := if spec.cleanGun then CleanGun(id, part) else SandPart(id, part);
    if Pausing(s) then
      [prep, SetFan(id + 1, F1, false), SprayPart(id + 2, part, spec.coat),
       SetFan(id + 3, F1, true), MoveToSafePose(id + 4)]
    else
      [prep, SprayPart(id + 1, part, spec.coat), MoveToSafePose(id + 2)]
  }

  function RobotWorkPhase(s: LineState, sensors: Sensors, cfg: Config, id: nat): StepResult {
    var spec := Spec(s.beat);
    if s.occupancy == map[] && s.inQueue == [] then Stay(s, Some(LineEmpty), id)
    else if s.PartAt(O).None? then Stay(s.(phase := AwaitGuards), None, id)
    else
      var part := s.PartAt(O).value;
      if part.role != spec.role then EnterFault(s, RoleMismatch(s.beat, part.partId), id)
      else if part.coats >= spec.coat then Stay(s.(phase := AwaitGuards), None, id)
      else if SprayStationNotReady(s, sensors).Some? then Stay(s, SprayStationNotReady(s, sensors), id)
      else
        var coated := part.(coats := spec.coat, isWet := true);
        Emit(s.(parts := s.parts[part.partId := coated]), AwaitGuards, WorkBatch(s, part.partId, id), id)
  }

  function AwaitGuardsPhase(s: LineState, sensors: Sensors, cfg: Config, id: nat): StepResult {
    var blocked := DepartureBlocked(s, sensors, cfg, LiveMoves(s));
    if blocked.Some? then Stay(s, blocked, id) else Stay(s.(phase := ShutterOpen), None, id)
  }

  function Arrivals(moves: seq<Move>): set<Station> {
    set m | m in moves && m.dst != OUT :: m.dst
  }

  function MovingPhase(s: LineState, sensors: Sensors, cfg: Config, id: nat): StepResult {
    if s.inFlight != [] then
      var missing := Arrivals(s.inFlight) - sensors.occupied;
      if missing != {} then EnterFault(s, NotConfirmed(missing), id)
      else Stay(Shifted(s, s.inFlight).(inFlight := [], phase := ShutterClose), None, id)
    else
      var moves := LiveMoves(s);
      if moves == [] then Stay(s.(phase := ShutterClose), None, id)
      else
        var blocked := ZoneMotionBlocked(s, sensors, cfg, moves);
        if blocked.Some? then Stay(s, blocked, id)
        else
          Emit(s.(inFlight := moves), Moving,
               [AdvanceTrain(id, TransitionDirection(s.beat), moves)], id)
  }

  /** A fan over an empty station stays off. */
  function SetFansPhase(s: LineState, id: nat): StepResult {
    var beat := NextBeat(s.beat);
    var f1 := Spec(beat).f1Fan && s.Holds(F1);
    var f2 := Spec(beat).f2Fan && s.Holds(F2);
    var pair := s.pairIndex + (if beat == P1 then 1 else 0);
    Emit(s.(beat := beat, pairIndex := pair, f1Fan := f1, f2Fan := f2, shutter := Closed), RobotWork,
         [SetFan(id, F1, f1), SetFan(id + 1, F2, f2)], id)
  }

  // --------------------------------------------------------------- resume

  /** The phase a recovery re-enters from: where the fault landed. */
  function EntryPhase(s: LineState): Phase {
    if s.faultPhase.Some? then s.faultPhase.value else RobotWork
  }

  /** The line as confirmed, and the phase to go on from: the transition machinery for a
      move that has happened, the guard for one that has not, else the work phase. */
  function Reentry(s: LineState, occupancy: map<Station, PartId>, beat: Beat): (LineState, Phase) {
    var candidate := s.(occupancy := occupancy, beat := beat);
    var entry := EntryPhase(s);
    var projected := Shifted(s.(fault := None), s.inFlight);
    if entry == ShutterClose || entry == SetFans then (candidate, ShutterClose)
    else if entry == Moving && s.inFlight != [] then
      if occupancy == projected.occupancy then (projected.(beat := beat), ShutterClose)
      else if occupancy == s.occupancy then (candidate, AwaitGuards)
      else (candidate, RobotWork)
    else (candidate, RobotWork)
  }

  function Resume(
    s: LineState,
    sensors: Sensors,
    confirmed: Option<map<Station, PartId>>,
    beatOverride: Option<Beat>,
    id: nat) : StepResult
  {
    if s.phase != Faulted then Stay(s, Some(NotFaulted), id) else
    var occupancy := if confirmed.Some? then confirmed.value else s.occupancy;
    var beat := if beatOverride.Some? then beatOverride.value else s.beat;
    var (base, target) := Reentry(s, occupancy, beat);
    var resumed := base.(
      phase := target, fault := None, faultPhase := None, pending := [id], inFlight := []);
    if OccupancyMismatch(resumed, sensors).Some? then
      Stay(s.(occupancy := occupancy),
           Some(ResumeRejected(OccupancyMismatch(resumed, sensors).value)), id + 1)
    else
      StepResult(resumed, [MoveToSafePose(id)], None, id + 1)
  }
}

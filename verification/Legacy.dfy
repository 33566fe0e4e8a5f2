/** The sequencer of the legacy line: one thread owns belt and robot, parts enter
    straight to O, and the beats skip and drain instead of faulting when the infeed
    runs dry. The outside world is one oracle per step. */
module Legacy {
  import opened Model
  import opened Schedule
  import opened Timers

  datatype LegacyPhase = Idle | Robot | Flash | Stage | Transition | Halted

  datatype Trouble =
    | FeedWatchFailed
    | BeltFailed
    | NotFoundAtInfeed
    | NeverReachedWorkZero
    | RobotFailed
    | CleanFailed
    | SensorReadFailed
    | StagingFailed
    | F1OccupiedAtEntry
    | F2OccupiedAtReturn
    | OperatorHalt

  /** How the F1 fan is wired; the F2 fan always counts as on. */
  datatype FanKind = AlwaysOn | RobotDo | NoFan

  datatype LegacyConfig = LegacyConfig(flash: Config, f1: FanKind, continuous: bool)

  datatype Sequencer = Sequencer(
    parts: map<PartId, PartState>,
    occ: map<Station, PartId>,
    queue: seq<PartId>,
    completed: seq<PartId>,
    pair: int,
    pending: Option<PartId>,
    pendingClean: bool,
    beat: Beat,
    phase: LegacyPhase,
    fault: Option<Trouble>,
    f1On: bool)
  {
    /** The original tests ids for truth, so an empty id counts as no part. */
    predicate Holds(st: Station) {
      st in occ && occ[st] != EmptyId
    }
  }

  datatype BeltResult = Raises | Ends(ok: bool)

  datatype RobotResult = WorkDone | SandFails | SprayFails | RetractFails

  datatype Eyes = Eyes(staging: bool, onload: bool, offload: bool)

  /** All that one step can meet: seconds since the last banking, what the belts,
      eyes and robot do, the seconds spent before and during the burst, and the
      identity a minted part would get. */
  datatype World = World(
    dt: real,
    feedFails: bool,
    eyes: Option<Eyes>,
    intake: BeltResult,
    stage: BeltResult,
    belt: BeltResult,
    robot: RobotResult,
    toBurst: real,
    burst: real,
    cleanFails: bool,
    product: Product,
    newId: PartId)

  /** What a step did besides changing the state. */
  datatype Effect = Effect(sprayed: Option<(PartId, nat)>, admitted: seq<PartId>)

  const Quiet := Effect(None, [])

  // ---------------------------------------------------------------- helpers

  predicate IsEntryBeat(b: Beat) {
    b == P1 || b == P4
  }

  predicate FanCounts(s: Sequencer, cfg: LegacyConfig, st: Station) {
    st == F1 && cfg.f1 == RobotDo ==> s.f1On
  }

  function SetF1(s: Sequencer, cfg: LegacyConfig, on: bool): Sequencer {
    if cfg.f1 == RobotDo then s.(f1On := on) else s
  }

  function BankAt(s: Sequencer, cfg: LegacyConfig, st: Station, dt: real): Sequencer {
    if st in s.occ && s.occ[st] in s.parts && s.parts[s.occ[st]].coats >= 1 && FanCounts(s, cfg, st)
    then s.(parts := s.parts[s.occ[st] := Timers.Bank(s.parts[s.occ[st]], dt, cfg.flash)])
    else s
  }

  /** Wall-clock credit for coated parts at a fan; a clock that stood still credits nothing. */
  function BankAll(s: Sequencer, cfg: LegacyConfig, dt: real): Sequencer {
    if dt <= 0.0 then s else BankAt(BankAt(s, cfg, F1, dt), cfg, F2, dt)
  }

  function Fault(s: Sequencer, why: Trouble): Sequencer {
    s.(fault := Some(why), phase := Halted)
  }

  function FlashBlocked(s: Sequencer, cfg: LegacyConfig, st: Station): bool {
    && s.Holds(st) && s.occ[st] in s.parts
    && s.parts[s.occ[st]].coats >= 1
    && cfg.flash.flashSeconds - s.parts[s.occ[st]].ActiveFlash() > 0.0
  }

  /** Only flash 1 gates a departure; at an entry beat only the outfeed eye does. */
  predicate DepartureBlocked(s: Sequencer, cfg: LegacyConfig, eyes: Eyes) {
    match s.beat
    case P1 => s.Holds(F2) && eyes.offload
    case P4 => s.Holds(F2) && eyes.offload
    case P2 => FlashBlocked(s, cfg, F2)
    case P3 => FlashBlocked(s, cfg, F1)
  }

  function NewPart(s: Sequencer, w: World, role: Role): PartState {
    var pair := if role == LEAD then s.pair + 1 else s.pair;
    PartState(w.newId, w.product, role, if pair < 0 then 0 else pair, 0, 0.0, 0.0, false)
  }

  /** Identity is created when the sensors deliver a physical part. */
  function Minted(s: Sequencer, w: World, role: Role): Sequencer {
    s.(parts := s.parts[w.newId := NewPart(s, w, role)], pair := if role == LEAD then s.pair + 1 else s.pair)
  }

  /** Declared ids are consumed first. */
  function Admitted(s: Sequencer, w: World, role: Role): (Sequencer, PartId) {
    if s.queue != [] then (s.(queue := s.queue[1..]), s.queue[0]) else (Minted(s, w, role), w.newId)
  }

  // ------------------------------------------------------------------ steps

  function StepIdle(s: Sequencer, cfg: LegacyConfig, w: World): (Sequencer, Effect) {
    if s.occ != map[] then (s, Quiet)
    else if s.queue == [] && !cfg.continuous then (s, Quiet)
    else if w.eyes.None? then (Fault(s, BeltFailed), Quiet)
    else if !w.eyes.value.staging && w.intake.Raises? then (Fault(s, BeltFailed), Quiet)
    else if !w.eyes.value.staging && !w.intake.ok then
      (if cfg.continuous then s else Fault(s, NotFoundAtInfeed), Quiet)
    else if w.belt.Raises? then (Fault(s, BeltFailed), Quiet)
    else if !w.belt.ok then (Fault(s, NeverReachedWorkZero), Quiet)
    else
      var (t, pid) := Admitted(s, w, LEAD);
      (t.(occ := t.occ[O := pid], beat := P1, phase := Robot), Effect(None, [pid]))
  }

  /** The F1 fan pauses around the burst only if it can be switched at all. */
  predicate Pauses(s: Sequencer, cfg: LegacyConfig) {
    F1 in s.occ && s.occ[F1] in s.parts && s.parts[s.occ[F1]].isWet && cfg.f1 == RobotDo
  }

  /** The state when the gun has stopped, its fan as it was left. */
  function AfterBurst(s: Sequencer, cfg: LegacyConfig, w: World): Sequencer {
    var quiet := if Pauses(s, cfg) then SetF1(s, cfg, false) else s;
    var sprayed := BankAll(BankAll(quiet, cfg, w.toBurst), cfg, w.burst);
    if Pauses(s, cfg) then SetF1(sprayed, cfg, true) else sprayed
  }

  function AbortedBurst(s: Sequencer, cfg: LegacyConfig, w: World): Sequencer {
    BankAll(if Pauses(s, cfg) then SetF1(s, cfg, false) else s, cfg, w.toBurst)
  }

  predicate NeedsCoat(s: Sequencer) {
    O in s.occ && s.occ[O] in s.parts && s.parts[s.occ[O]].coats < Spec(s.beat).coat
  }

  function StepRobot(s: Sequencer, cfg: LegacyConfig, w: World): (Sequencer, Effect) {
    if !NeedsCoat(s) then (s.(phase := Flash), Quiet)
    else
      var pid, coat := s.occ[O], Spec(s.beat).coat;
      match w.robot
      case SandFails => (Fault(s, RobotFailed), Quiet)
      case SprayFails => (Fault(AbortedBurst(s, cfg, w), RobotFailed), Effect(Some((pid, coat)), []))
      case RetractFails => (Fault(AfterBurst(s, cfg, w), RobotFailed), Effect(Some((pid, coat)), []))
      case WorkDone =>
        var t := AfterBurst(s, cfg, w);
        (t.(parts := t.parts[pid := s.parts[pid].(coats := coat, isWet := true)],
            pendingClean := Spec(s.beat).cleanGun, phase := Flash),
         Effect(Some((pid, coat)), []))
  }

  function StepFlash(s: Sequencer, cfg: LegacyConfig, w: World): (Sequencer, Effect) {
    if s.pendingClean && w.cleanFails then (Fault(s.(pendingClean := false), CleanFailed), Quiet)
    else
      var t := s.(pendingClean := false);
      if w.eyes.None? || DepartureBlocked(t, cfg, w.eyes.value) then (t, Quiet)
      else if IsEntryBeat(t.beat) && (t.queue != [] || cfg.continuous) then (t.(phase := Stage), Quiet)
      else (t.(phase := Transition), Quiet)
  }

  function Skip(s: Sequencer, cfg: LegacyConfig, why: Trouble): Sequencer {
    if cfg.continuous then s.(pending := None, phase := Transition) else Fault(s, why)
  }

  function StepStage(s: Sequencer, cfg: LegacyConfig, w: World): (Sequencer, Effect) {
    if w.eyes.None? then (Fault(s, SensorReadFailed), Quiet)
    else if !w.eyes.value.onload then (Skip(s, cfg, NotFoundAtInfeed), Quiet)
    else if w.stage.Raises? then (Fault(s, BeltFailed), Quiet)
    else if !w.stage.ok then (Skip(s, cfg, StagingFailed), Quiet)
    else
      var (t, pid) := Admitted(s, w, if s.beat == P1 then TRAIL else LEAD);
      (t.(pending := Some(pid), phase := Transition), Effect(None, [pid]))
  }

  /** Every part one station on, a finished one off the line, the enterer to O. */
  function MovedDown(s: Sequencer, enterer: Option<PartId>): Sequencer {
    var done := if s.Holds(F2) then s.completed + [s.occ[F2]] else s.completed;
    var a := s.occ - {F2};
    var b := if s.Holds(O) then (a - {O})[F2 := a[O]] else a;
    var c := if s.Holds(F1) then (b - {F1})[O := b[F1]] else b;
    s.(completed := done, occ := if enterer.Some? then c[O := enterer.value] else c)
  }

  /** Both belts back one station: the part at F2 returns to O, the one at O to F1. */
  function Retreated(s: Sequencer): Sequencer
    requires s.Holds(F2)
  {
    var a := if s.Holds(O) then (s.occ - {O})[F1 := s.occ[O]] else s.occ;
    s.(occ := (a - {F2})[O := a[F2]])
  }

  function Returned(s: Sequencer): Sequencer
    requires s.Holds(F1)
  {
    var a := if s.Holds(O) then (s.occ - {O})[F2 := s.occ[O]] else s.occ;
    s.(occ := (a - {F1})[O := a[F1]])
  }

  /** One transition's belt work: the shifted state, or why it failed. */
  function Shifted(s: Sequencer, w: World): (Sequencer, Option<Trouble>) {
    match s.beat
    case P2 =>
      if !s.Holds(F2) then (s, None)
      else if w.belt.Raises? then (s, Some(BeltFailed))
      else if !w.belt.ok then (s, Some(NeverReachedWorkZero))
      else (Retreated(s), None)
    case P3 =>
      if s.Holds(F1) then
        if s.Holds(F2) then (s, Some(F2OccupiedAtReturn))
        else if w.belt.Raises? then (s, Some(BeltFailed))
        else if !w.belt.ok then (s, Some(NeverReachedWorkZero))
        else (Returned(s), None)
      else if s.occ == map[] then (s, None)
      else if w.belt.Raises? then (s, Some(BeltFailed))
      else (MovedDown(s, None), None)
    case _ =>
      if s.pending.Some? then
        if s.Holds(F1) then (s, Some(F1OccupiedAtEntry))
        else if w.belt.Raises? then (s, Some(BeltFailed))
        else if !w.belt.ok then (s, Some(NeverReachedWorkZero))
        else (MovedDown(s.(pending := None), s.pending), None)
      else if s.occ == map[] then (s, None)
      else if w.belt.Raises? then (s, Some(BeltFailed))
      else (MovedDown(s, None), None)
  }

  predicate WetAtF1(s: Sequencer) {
    F1 in s.occ && s.occ[F1] in s.parts && s.parts[s.occ[F1]].isWet
  }

  /** The next beat begins, with the F1 fan over a wet part only. */
  function NewBeat(s: Sequencer, cfg: LegacyConfig): Sequencer {
    SetF1(s.(beat := NextBeat(s.beat)), cfg, WetAtF1(s))
      .(phase := if s.occ == map[] && s.queue == [] then Idle else Robot)
  }

  function StepTransition(s: Sequencer, cfg: LegacyConfig, w: World): (Sequencer, Effect) {
    var (t, failed) := Shifted(s, w);
    if failed.Some? then (Fault(t, failed.value), Quiet) else (NewBeat(t, cfg), Quiet)
  }

  function Dispatched(s: Sequencer, cfg: LegacyConfig, w: World): (Sequencer, Effect) {
    if s.phase == Halted then (s, Quiet)
    else if w.feedFails then (Fault(s, FeedWatchFailed), Quiet)
    else
      match s.phase
      case Idle => StepIdle(s, cfg, w)
      case Robot => StepRobot(s, cfg, w)
      case Flash => StepFlash(s, cfg, w)
      case Stage => StepStage(s, cfg, w)
      case Transition => StepTransition(s, cfg, w)
      case Halted => (s, Quiet)
  }

  /** One bounded action, the time since the last one banked first. */
  function Stepped(s: Sequencer, cfg: LegacyConfig, w: World): (Sequencer, Effect) {
    Dispatched(BankAll(s, cfg, w.dt), cfg, w)
  }

  /** A declared part joins the queue; an id already known is refused. */
  function Declared(s: Sequencer, pid: PartId, part: PartState): Sequencer {
    if pid in s.parts || pid in s.queue then s
    else s.(parts := s.parts[pid := part], queue := s.queue + [pid])
  }
}

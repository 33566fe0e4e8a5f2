/** What the legacy sequencer keeps over every run: order, the two occupancies it
    calls impossible, and coat 2 only over a complete flash 1. */
module LegacyRuns {
  import opened Model
  import opened Schedule
  import opened Timers
  import opened Legacy

  // ------------------------------------------------------------------ order

  function At(s: Sequencer, st: Station): seq<PartId> {
    if st in s.occ then [s.occ[st]] else []
  }

  function ToSeq(o: Option<PartId>): seq<PartId> {
    if o.Some? then [o.value] else []
  }

  /** Everything admitted so far, first out first. */
  function Order(s: Sequencer): seq<PartId> {
    s.completed + At(s, F2) + At(s, O) + At(s, F1) + ToSeq(s.pending)
  }

  /** Where parts can stand in each beat, and when an enterer can be pending. */
  predicate WellPlaced(s: Sequencer) {
    && s.occ.Keys <= {F1, O, F2}
    && (forall st :: st in s.occ ==> s.occ[st] != EmptyId && s.occ[st] in s.parts)
    && (s.beat == P3 ==> F2 !in s.occ)
    && (s.beat != P3 ==> F1 !in s.occ)
    && (s.pending.Some? ==>
          s.pending.value != EmptyId && s.pending.value in s.parts
          && IsEntryBeat(s.beat) && (s.phase == Transition || s.phase == Halted))
    && (s.phase == Idle ==> s.occ == map[])
    && (forall i :: 0 <= i < |s.queue| ==> s.queue[i] != EmptyId && s.queue[i] in s.parts)
  }

  /** A minted identity is a new one. */
  predicate Mints(s: Sequencer, w: World) {
    w.newId != EmptyId && w.newId !in s.parts
  }

  predicate Impossible(why: Option<Trouble>) {
    why == Some(F1OccupiedAtEntry) || why == Some(F2OccupiedAtReturn)
  }

  lemma BankOne(s: Sequencer, cfg: LegacyConfig, st: Station, dt: real)
    ensures var t := BankAt(s, cfg, st, dt); t == s.(parts := t.parts) && t.parts.Keys == s.parts.Keys
  {
  }

  /** Banking touches timers and nothing else. */
  lemma BankKeeps(s: Sequencer, cfg: LegacyConfig, dt: real)
    ensures var t := BankAll(s, cfg, dt); t == s.(parts := t.parts) && t.parts.Keys == s.parts.Keys
  {
    BankOne(s, cfg, F1, dt);
    BankOne(BankAt(s, cfg, F1, dt), cfg, F2, dt);
  }

  lemma BurstKeeps(s: Sequencer, cfg: LegacyConfig, w: World)
    ensures var t := AfterBurst(s, cfg, w); t == s.(parts := t.parts, f1On := t.f1On) && t.parts.Keys == s.parts.Keys
    ensures var t := AbortedBurst(s, cfg, w); t == s.(parts := t.parts, f1On := t.f1On) && t.parts.Keys == s.parts.Keys
  {
    var quiet := if Pauses(s, cfg) then SetF1(s, cfg, false) else s;
    BankKeeps(quiet, cfg, w.toBurst);
    BankKeeps(BankAll(quiet, cfg, w.toBurst), cfg, w.burst);
  }

  /** What a step owes the order: nothing lost, nothing overtaken, and at most one
      part let in, taken from the head of the queue when there is one. */
  predicate Ordered(s: Sequencer, t: Sequencer, admitted: seq<PartId>) {
    && Order(t) == Order(s) + admitted
    && |admitted| <= 1
    && (if admitted != [] && s.queue != [] then s.queue == admitted + t.queue else t.queue == s.queue)
  }

  lemma MovedDownOrder(s: Sequencer, enterer: Option<PartId>)
    requires WellPlaced(s) && F1 !in s.occ && s.pending.None?
    requires enterer.Some? ==> enterer.value != EmptyId
    ensures Order(MovedDown(s, enterer)) == Order(s) + ToSeq(enterer)
    ensures var t := MovedDown(s, enterer);
      t.occ.Keys <= {O, F2} && (forall st :: st in t.occ ==> t.occ[st] in s.occ.Values || Some(t.occ[st]) == enterer)
  {
  }

  lemma RetreatedOrder(s: Sequencer)
    requires WellPlaced(s) && s.beat == P2 && F2 in s.occ
    ensures Order(Retreated(s)) == Order(s)
    ensures var t := Retreated(s); t.occ.Keys <= {F1, O} && (forall st :: st in t.occ ==> t.occ[st] in s.occ.Values)
  {
  }

  lemma ReturnedOrder(s: Sequencer)
    requires WellPlaced(s) && s.beat == P3 && F1 in s.occ
    ensures Order(Returned(s)) == Order(s)
    ensures var t := Returned(s); t.occ.Keys <= {O, F2} && (forall st :: st in t.occ ==> t.occ[st] in s.occ.Values)
  {
  }

  // -------------------------------------------------------- step by step

  /** A step that moves no part. */
  lemma Unmoved(s: Sequencer, t: Sequencer)
    requires WellPlaced(s) && s.parts.Keys <= t.parts.Keys
    requires t.occ == s.occ && t.completed == s.completed && t.pending == s.pending
    requires t.queue == s.queue && t.beat == s.beat
    requires t.pending.Some? ==> t.phase == Transition || t.phase == Halted
    requires t.phase != Idle || s.phase == Idle
    ensures WellPlaced(t) && Ordered(s, t, [])
  {
  }

  lemma AdmittedKeeps(s: Sequencer, w: World, role: Role)
    requires WellPlaced(s) && Mints(s, w)
    ensures
      var (t, pid) := Admitted(s, w, role);
      && WellPlaced(t) && t == s.(parts := t.parts, queue := t.queue, pair := t.pair)
      && pid != EmptyId && pid in t.parts && s.parts.Keys <= t.parts.Keys
      && (if s.queue != [] then s.queue == [pid] + t.queue else t.queue == s.queue)
  {
  }

  /** The first part of the day goes straight to O. */
  lemma EntersEmptyLine(s: Sequencer, t: Sequencer, pid: PartId)
    requires WellPlaced(t) && t.occ == map[] && t.pending.None? && pid != EmptyId && pid in t.parts
    requires t.completed == s.completed && s.occ == t.occ && s.pending == t.pending
    requires if s.queue != [] then s.queue == [pid] + t.queue else t.queue == s.queue
    ensures var r := t.(occ := t.occ[O := pid], beat := P1, phase := Robot); WellPlaced(r) && Ordered(s, r, [pid])
  {
  }

  lemma IdleKeeps(s: Sequencer, cfg: LegacyConfig, w: World)
    requires WellPlaced(s) && Mints(s, w) && s.phase == Idle
    ensures var (t, e) := StepIdle(s, cfg, w); WellPlaced(t) && Ordered(s, t, e.admitted)
  {
    var (t, pid) := Admitted(s, w, LEAD);
    AdmittedKeeps(s, w, LEAD);
    EntersEmptyLine(s, t, pid);
    Unmoved(s, s);
    Unmoved(s, Fault(s, BeltFailed));
    Unmoved(s, Fault(s, NotFoundAtInfeed));
    Unmoved(s, Fault(s, NeverReachedWorkZero));
  }

  /** Only the part table, the fan and the phase. */
  predicate TouchesTable(s: Sequencer, t: Sequencer) {
    && t == s.(parts := t.parts, pendingClean := t.pendingClean, phase := t.phase, fault := t.fault, f1On := t.f1On)
    && t.parts.Keys == s.parts.Keys && (t.phase == Flash || t.phase == Halted)
    && (t.fault == s.fault || t.fault == Some(RobotFailed))
  }

  lemma WorkTouches(s: Sequencer, t: Sequencer, pid: PartId, p: PartState, clean: bool)
    requires t == s.(parts := t.parts, f1On := t.f1On) && t.parts.Keys == s.parts.Keys && pid in s.parts
    ensures TouchesTable(s, t.(parts := t.parts[pid := p], pendingClean := clean, phase := Flash))
    ensures TouchesTable(s, Fault(t, RobotFailed))
  {
  }

  lemma RobotTouches(s: Sequencer, cfg: LegacyConfig, w: World)
    ensures TouchesTable(s, StepRobot(s, cfg, w).0) && StepRobot(s, cfg, w).1.admitted == []
  {
    if NeedsCoat(s) {
      var pid, part := s.occ[O], s.parts[s.occ[O]].(coats := Spec(s.beat).coat, isWet := true);
      BurstKeeps(s, cfg, w);
      WorkTouches(s, AfterBurst(s, cfg, w), pid, part, Spec(s.beat).cleanGun);
      WorkTouches(s, AbortedBurst(s, cfg, w), pid, part, false);
      WorkTouches(s, s, pid, part, false);
    }
  }

  lemma RobotKeeps(s: Sequencer, cfg: LegacyConfig, w: World)
    requires WellPlaced(s) && s.phase == Robot
    ensures var (t, e) := StepRobot(s, cfg, w); WellPlaced(t) && Ordered(s, t, e.admitted)
  {
    RobotTouches(s, cfg, w);
    Unmoved(s, StepRobot(s, cfg, w).0);
  }

  lemma FlashTouches(s: Sequencer, cfg: LegacyConfig, w: World)
    ensures
      var (t, e) := StepFlash(s, cfg, w);
      && t == s.(pendingClean := false, phase := t.phase, fault := t.fault) && e == Quiet
      && (t.phase == s.phase || t.phase == Halted || t.phase == Stage || t.phase == Transition)
      && (t.phase == Stage ==> s.phase == Stage || IsEntryBeat(s.beat))
  {
  }

  lemma FlashKeeps(s: Sequencer, cfg: LegacyConfig, w: World)
    requires WellPlaced(s) && s.phase == Flash
    ensures var (t, e) := StepFlash(s, cfg, w); WellPlaced(t) && Ordered(s, t, e.admitted)
    ensures StepFlash(s, cfg, w).0.phase == Stage ==> IsEntryBeat(s.beat)
  {
    FlashTouches(s, cfg, w);
    Unmoved(s, StepFlash(s, cfg, w).0);
  }

  lemma EntersStaged(s: Sequencer, t: Sequencer, pid: PartId)
    requires WellPlaced(t) && t.pending.None? && pid != EmptyId && pid in t.parts && IsEntryBeat(t.beat) && t.phase == Stage
    requires t.completed == s.completed && s.occ == t.occ && s.pending == t.pending
    requires if s.queue != [] then s.queue == [pid] + t.queue else t.queue == s.queue
    ensures var r := t.(pending := Some(pid), phase := Transition); WellPlaced(r) && Ordered(s, r, [pid])
  {
  }

  lemma StageCases(s: Sequencer, cfg: LegacyConfig, w: World)
    requires s.phase == Stage && s.pending.None?
    ensures
      var (t, e) := StepStage(s, cfg, w);
      || (t == s.(fault := t.fault, phase := Halted) && e == Quiet)
      || (t == s.(phase := Transition) && e == Quiet && cfg.continuous)
      || (var (u, pid) := Admitted(s, w, if s.beat == P1 then TRAIL else LEAD);
          t == u.(pending := Some(pid), phase := Transition) && e.admitted == [pid])
  {
  }

  lemma StageKeeps(s: Sequencer, cfg: LegacyConfig, w: World)
    requires WellPlaced(s) && Mints(s, w) && s.phase == Stage && IsEntryBeat(s.beat)
    ensures var (t, e) := StepStage(s, cfg, w); WellPlaced(t) && Ordered(s, t, e.admitted)
  {
    var role := if s.beat == P1 then TRAIL else LEAD;
    var (t, pid) := Admitted(s, w, role);
    AdmittedKeeps(s, w, role);
    EntersStaged(s, t, pid);
    Unmoved(s, s.(phase := Transition));
    StageCases(s, cfg, w);
    FaultsOnly(s, StepStage(s, cfg, w).0);
  }

  /** Halting moves nothing, whatever the reason. */
  lemma FaultsOnly(s: Sequencer, t: Sequencer)
    requires WellPlaced(s)
    ensures t == s.(fault := t.fault, phase := Halted) ==> WellPlaced(t) && Ordered(s, t, [])
  {
    if t == s.(fault := t.fault, phase := Halted) {
      Unmoved(s, t);
    }
  }

  /** What one belt transition leaves behind. */
  predicate Shifts(s: Sequencer, t: Sequencer) {
    && Order(t) == Order(s)
    && t == s.(occ := t.occ, completed := t.completed, pending := None)
    && (forall st :: st in t.occ ==> t.occ[st] != EmptyId && t.occ[st] in s.parts)
    && t.occ.Keys <= (if s.beat == P2 then {F1, O} else {O, F2})
  }

  lemma EntryShifts(s: Sequencer)
    requires WellPlaced(s) && s.beat != P2 && F1 !in s.occ && (s.pending.Some? ==> IsEntryBeat(s.beat))
    ensures Shifts(s, MovedDown(s.(pending := None), s.pending))
  {
    var u := s.(pending := None);
    MovedDownOrder(u, s.pending);
    assert Order(s) == Order(u) + ToSeq(s.pending);
  }

  lemma ShiftCases(s: Sequencer, w: World)
    requires WellPlaced(s) && s.phase == Transition
    ensures
      var (t, failed) := Shifted(s, w);
      || (failed.Some? && t == s && !Impossible(failed))
      || (failed.None? && t == s && s.pending.None? && (s.occ == map[] || (s.beat == P2 && F2 !in s.occ)))
      || (failed.None? && s.beat == P2 && F2 in s.occ && t == Retreated(s))
      || (failed.None? && s.beat == P3 && F1 in s.occ && t == Returned(s))
      || (failed.None? && s.beat != P2 && F1 !in s.occ && t == MovedDown(s.(pending := None), s.pending))
  {
  }

  lemma ShiftKeeps(s: Sequencer, w: World)
    requires WellPlaced(s) && s.phase == Transition
    ensures
      var (t, failed) := Shifted(s, w);
      !Impossible(failed) && (if failed.Some? then t == s else Shifts(s, t))
  {
    ShiftCases(s, w);
    if s.beat == P2 && F2 in s.occ { RetreatedOrder(s); }
    if s.beat == P3 && F1 in s.occ { ReturnedOrder(s); }
    if s.beat != P2 && F1 !in s.occ { EntryShifts(s); }
    if s.pending.None? { StandsStill(s); }
  }

  lemma StandsStill(s: Sequencer)
    requires WellPlaced(s) && s.pending.None?
    ensures s.occ == map[] || (s.beat == P2 && F2 !in s.occ) ==> Shifts(s, s)
  {
  }

  lemma NewBeatKeeps(s: Sequencer, t: Sequencer, cfg: LegacyConfig)
    requires WellPlaced(s) && Shifts(s, t)
    ensures WellPlaced(NewBeat(t, cfg)) && Ordered(s, NewBeat(t, cfg), [])
  {
  }

  lemma TransitionKeeps(s: Sequencer, cfg: LegacyConfig, w: World)
    requires WellPlaced(s) && s.phase == Transition
    ensures var (t, e) := StepTransition(s, cfg, w); WellPlaced(t) && Ordered(s, t, e.admitted)
    ensures !Impossible(s.fault) ==> !Impossible(StepTransition(s, cfg, w).0.fault)
  {
    var (t, failed) := Shifted(s, w);
    ShiftKeeps(s, w);
    if failed.Some? {
      FaultsOnly(s, Fault(s, failed.value));
    } else {
      NewBeatKeeps(s, t, cfg);
    }
  }

  /** Every step keeps the placing and the order, and neither occupancy the code
      calls impossible is ever the reason it stops. */
  lemma StepKeeps(s: Sequencer, cfg: LegacyConfig, w: World)
    requires Sound(s) && Mints(s, w)
    ensures var (t, e) := Stepped(s, cfg, w); Sound(t) && Ordered(s, t, e.admitted)
  {
    var b := BankAll(s, cfg, w.dt);
    BankKeeps(s, cfg, w.dt);
    BankedSound(s, b);
    DispatchKeeps(b, cfg, w);
  }

  /** Well placed, staging only at an entry beat, and never stopped by the impossible. */
  predicate Sound(s: Sequencer) {
    WellPlaced(s) && (s.phase == Stage ==> IsEntryBeat(s.beat)) && !Impossible(s.fault)
  }

  lemma BankedSound(s: Sequencer, b: Sequencer)
    requires Sound(s) && b == s.(parts := b.parts) && b.parts.Keys == s.parts.Keys
    ensures Sound(b) && Order(b) == Order(s)
  {
  }

  lemma DispatchKeeps(s: Sequencer, cfg: LegacyConfig, w: World)
    requires Sound(s) && Mints(s, w)
    ensures var (t, e) := Dispatched(s, cfg, w); Sound(t) && Ordered(s, t, e.admitted)
  {
    FaultsOnly(s, Fault(s, FeedWatchFailed));
    if s.phase == Halted {
      Unmoved(s, s);
    } else if !w.feedFails {
      match s.phase
      case Idle => IdleKeeps(s, cfg, w); IdleFault(s, cfg, w);
      case Robot => RobotKeeps(s, cfg, w); RobotFault(s, cfg, w);
      case Flash => FlashKeeps(s, cfg, w); FlashFault(s, cfg, w);
      case Stage => StageKeeps(s, cfg, w); StageFault(s, cfg, w);
      case Transition => TransitionKeeps(s, cfg, w); TransitionPhase(s, cfg, w);
    }
  }

  /** The phase and the fault a step ends with. */
  predicate EndsFine(s: Sequencer, t: Sequencer) {
    (t.phase == Stage ==> s.phase == Flash || s.phase == Stage) && (t.fault == s.fault || !Impossible(t.fault))
  }

  lemma IdleFault(s: Sequencer, cfg: LegacyConfig, w: World)
    requires s.phase == Idle
    ensures EndsFine(s, StepIdle(s, cfg, w).0)
  {
  }

  lemma RobotFault(s: Sequencer, cfg: LegacyConfig, w: World)
    requires s.phase == Robot
    ensures EndsFine(s, StepRobot(s, cfg, w).0)
  {
    RobotTouches(s, cfg, w);
  }

  lemma FlashFault(s: Sequencer, cfg: LegacyConfig, w: World)
    requires s.phase == Flash
    ensures EndsFine(s, StepFlash(s, cfg, w).0)
  {
  }

  lemma StageFault(s: Sequencer, cfg: LegacyConfig, w: World)
    requires s.phase == Stage && s.pending.None?
    ensures EndsFine(s, StepStage(s, cfg, w).0)
  {
    StageCases(s, cfg, w);
    AdmittedFault(s, w);
    StageTrouble(s, cfg, w);
  }

  lemma StageTrouble(s: Sequencer, cfg: LegacyConfig, w: World)
    ensures StepStage(s, cfg, w).0.fault == s.fault || !Impossible(StepStage(s, cfg, w).0.fault)
  {
  }

  lemma AdmittedFault(s: Sequencer, w: World)
    ensures Admitted(s, w, LEAD).0.fault == s.fault && Admitted(s, w, TRAIL).0.fault == s.fault
  {
  }

  lemma TransitionPhase(s: Sequencer, cfg: LegacyConfig, w: World)
    ensures StepTransition(s, cfg, w).0.phase != Stage
  {
  }

  // -------------------------------------------------------------- whole runs

  /** Between steps the operator may declare parts or halt, and a paused line banks. */
  datatype Happening =
    | Work(world: World)
    | Declare(pid: PartId, part: PartState)
    | Halt
    | Wait(dt: real)

  function Reacted(s: Sequencer, cfg: LegacyConfig, h: Happening): (Sequencer, Effect) {
    match h
    case Work(w) => Stepped(s, cfg, w)
    case Declare(pid, part) => (Declared(s, pid, part), Quiet)
    case Halt => (Fault(s, OperatorHalt), Quiet)
    case Wait(dt) => (BankAll(s, cfg, dt), Quiet)
  }

  /** Minted ids are new, and a declared part is fresh and has a name. */
  predicate Plausible(s: Sequencer, h: Happening) {
    match h
    case Work(w) => Mints(s, w)
    case Declare(pid, part) => pid != EmptyId && part.coats == 0 && part.flash1 == 0.0 && !part.isWet
    case Halt => true
    case Wait(dt) => true
  }

  lemma DeclaredKeeps(s: Sequencer, pid: PartId, part: PartState)
    requires Sound(s) && pid != EmptyId
    ensures Sound(Declared(s, pid, part)) && Order(Declared(s, pid, part)) == Order(s)
  {
  }

  lemma ReactedKeeps(s: Sequencer, cfg: LegacyConfig, h: Happening)
    requires Sound(s) && Plausible(s, h)
    ensures var (t, e) := Reacted(s, cfg, h); Sound(t) && Order(t) == Order(s) + e.admitted
  {
    match h
    case Work(w) => StepKeeps(s, cfg, w);
    case Declare(pid, part) => DeclaredKeeps(s, pid, part);
    case Halt => FaultsOnly(s, Fault(s, OperatorHalt));
    case Wait(dt) => BankKeeps(s, cfg, dt); BankedSound(s, BankAll(s, cfg, dt));
  }

  predicate IsLegacyRun(cfg: LegacyConfig, states: seq<Sequencer>, happenings: seq<Happening>, log: seq<Effect>) {
    && |states| == |happenings| + 1 && |log| == |happenings|
    && forall k {:trigger happenings[k]} :: 0 <= k < |happenings| ==>
         Plausible(states[k], happenings[k]) && (states[k + 1], log[k]) == Reacted(states[k], cfg, happenings[k])
  }

  function AdmittedBy(log: seq<Effect>, k: nat): seq<PartId>
    requires k <= |log|
  {
    if k == 0 then [] else AdmittedBy(log, k - 1) + log[k - 1].admitted
  }

  /** An empty line before its first part. */
  predicate AtRest(s: Sequencer) {
    s.occ == map[] && s.completed == [] && s.pending.None? && s.phase == Idle && s.fault.None? && s.beat == P1
    && (forall i :: 0 <= i < |s.queue| ==> s.queue[i] != EmptyId && s.queue[i] in s.parts)
  }

  /** No loss, no overtaking: at every point of every run, with any pattern of skips,
      nudges, starvation and late arrivals, the parts out, on the line and about to
      enter are the admitted ones in the order they were admitted; and the two
      occupancy faults are unreachable. */
  lemma {:induction false} LegacyOrder(
    cfg: LegacyConfig, states: seq<Sequencer>, happenings: seq<Happening>, log: seq<Effect>, k: nat)
    requires k < |states| && IsLegacyRun(cfg, states, happenings, log) && AtRest(states[0])
    ensures Order(states[k]) == AdmittedBy(log, k)
    ensures Sound(states[k])
  {
    if k > 0 {
      LegacyOrder(cfg, states, happenings, log, k - 1);
      ReactedKeeps(states[k - 1], cfg, happenings[k - 1]);
    }
  }
}

/** What one step of the legacy sequencer answers, read off the line and the world it
    met: who enters, what is sprayed, when the departure gate opens, what a belt move
    leaves and which trouble stops it; and, over whole runs, that nothing is driven out
    under a lit outfeed eye. */
module LegacyRules {
  import opened Model
  import opened Schedule
  import opened Timers
  import opened Legacy
  import opened LegacyRuns
  import Coats = LegacyCoats

  /** Coat 1 in the first two beats, coat 2 in the last two. */
  function Due(b: Beat): nat {
    if b == P1 || b == P2 then 1 else 2
  }

  function BeatAfter(b: Beat): Beat {
    if b == P1 then P2 else if b == P2 then P3 else if b == P3 then P4 else P1
  }

  function Standing(s: Sequencer, st: Station): Option<PartId> {
    if st in s.occ then Some(s.occ[st]) else None
  }

  predicate Wanted(s: Sequencer, cfg: LegacyConfig) {
    s.queue != [] || cfg.continuous
  }

  /** Halted for this reason, with nothing else changed. */
  predicate Stops(b: Sequencer, t: Sequencer, e: Effect, why: Trouble) {
    t == b.(phase := Halted, fault := Some(why)) && e == Quiet
  }

  predicate Running(s: Sequencer, w: World, phase: LegacyPhase) {
    s.phase == phase && !w.feedFails && Sound(s)
  }

  lemma StoppedStands(s: Sequencer, cfg: LegacyConfig, w: World)
    ensures s.phase == Halted ==> Stepped(s, cfg, w) == (BankAll(s, cfg, w.dt), Quiet)
    ensures s.phase != Halted && w.feedFails ==>
      Stops(BankAll(s, cfg, w.dt), Stepped(s, cfg, w).0, Stepped(s, cfg, w).1, FeedWatchFailed)
  {
    BankKeeps(s, cfg, w.dt);
  }

  // -------------------------------------------------------------- who enters

  /** Who is let in next: the head of the queue, or a part minted for the role. */
  predicate Enters(b: Sequencer, t: Sequencer, w: World, role: Role, pid: PartId) {
    if b.queue != [] then
      pid == b.queue[0] && t.queue == b.queue[1..] && t.parts == b.parts && t.pair == b.pair
    else
      && pid == w.newId && t.queue == [] && t.pair == b.pair + (if role == LEAD then 1 else 0)
      && t.parts == b.parts[pid := PartState(pid, w.product, role, if t.pair < 0 then 0 else t.pair, 0, 0.0, 0.0, false)]
  }

  /** The first part reaches O. */
  predicate IntakeSucceeds(w: World) {
    w.eyes.Some? && (w.eyes.value.staging || w.intake == Ends(true)) && w.belt == Ends(true)
  }

  function IntakeTrouble(w: World): Trouble {
    if w.eyes.None? then BeltFailed
    else if !w.eyes.value.staging && w.intake != Ends(true) then (if w.intake.Raises? then BeltFailed else NotFoundAtInfeed)
    else if w.belt.Raises? then BeltFailed
    else NeverReachedWorkZero
  }

  /** The intake ran and nothing came. */
  predicate NothingCame(w: World) {
    w.eyes.Some? && !w.eyes.value.staging && w.intake == Ends(false)
  }

  /** An idle line takes its first part straight to O exactly when parts are wanted and
      belts and eyes deliver one; an empty intake is waited out in continuous mode and
      is a fault in batch mode. */
  lemma IdleAnswers(s: Sequencer, cfg: LegacyConfig, w: World)
    requires Running(s, w, Idle)
    ensures
      var b := BankAll(s, cfg, w.dt);
      var (t, e) := Stepped(s, cfg, w);
      if !Wanted(s, cfg) then t == b && e == Quiet
      else if IntakeSucceeds(w) then
        && |e.admitted| == 1 && e.sprayed == None && Enters(b, t, w, LEAD, e.admitted[0])
        && t == b.(parts := t.parts, queue := t.queue, pair := t.pair, occ := map[O := e.admitted[0]], beat := P1, phase := Robot)
      else if NothingCame(w) && cfg.continuous then t == b && e == Quiet
      else Stops(b, t, e, IntakeTrouble(w))
  {
    BankKeeps(s, cfg, w.dt);
    assert map[][O := Admitted(BankAll(s, cfg, w.dt), w, LEAD).1] == map[O := Admitted(BankAll(s, cfg, w.dt), w, LEAD).1];
  }

  /** Staging lets a part in exactly when the junction shows one and the belts park it,
      a trail behind a first beat's lead and a lead otherwise; failing that the entry is
      skipped in continuous mode and is a fault in batch mode. */
  lemma StageAnswers(s: Sequencer, cfg: LegacyConfig, w: World)
    requires Running(s, w, Stage)
    ensures
      var b := BankAll(s, cfg, w.dt);
      var (t, e) := Stepped(s, cfg, w);
      if w.eyes.Some? && w.eyes.value.onload && w.stage == Ends(true) then
        && |e.admitted| == 1 && e.sprayed == None && Enters(b, t, w, if s.beat == P1 then TRAIL else LEAD, e.admitted[0])
        && t == b.(parts := t.parts, queue := t.queue, pair := t.pair, pending := Some(e.admitted[0]), phase := Transition)
      else if w.eyes.None? then Stops(b, t, e, SensorReadFailed)
      else if w.eyes.value.onload && w.stage.Raises? then Stops(b, t, e, BeltFailed)
      else if cfg.continuous then t == b.(phase := Transition) && e == Quiet
      else Stops(b, t, e, if w.eyes.value.onload then StagingFailed else NotFoundAtInfeed)
  {
    BankKeeps(s, cfg, w.dt);
  }

  // -------------------------------------------------------------- robot work

  /** The part at O lacks the beat's coat. */
  predicate CoatOwed(s: Sequencer) {
    O in s.occ && s.occ[O] in s.parts && s.parts[s.occ[O]].coats < Due(s.beat)
  }

  /** The coats on record once the robot is through. */
  predicate CoatsThen(s: Sequencer, w: World, t: Sequencer) {
    t.parts.Keys == s.parts.Keys &&
    forall pid :: pid in s.parts ==>
      t.parts[pid].coats == if CoatOwed(s) && w.robot == WorkDone && pid == s.occ[O] then Due(s.beat) else s.parts[pid].coats
  }

  /** The robot's turn: what it did, and where the line is left. */
  predicate RobotTurn(s: Sequencer, w: World, t: Sequencer, e: Effect) {
    && e.admitted == []
    && t == s.(parts := t.parts, phase := t.phase, fault := t.fault, pendingClean := t.pendingClean, f1On := t.f1On)
    && e.sprayed == (if CoatOwed(s) && w.robot != SandFails then Some((s.occ[O], Due(s.beat))) else None)
    && (if CoatOwed(s) && w.robot != WorkDone then t.phase == Halted && t.fault == Some(RobotFailed)
        else t.phase == Flash && t.fault == s.fault)
    && t.pendingClean == (if CoatOwed(s) && w.robot == WorkDone then Due(s.beat) == 2 else s.pendingClean)
    && CoatsThen(s, w, t)
  }

  lemma BurstCoats(s: Sequencer, cfg: LegacyConfig, w: World)
    ensures Coats.Grown(s.parts, AfterBurst(s, cfg, w).parts) && Coats.Grown(s.parts, AbortedBurst(s, cfg, w).parts)
  {
    var quiet := if Pauses(s, cfg) then SetF1(s, cfg, false) else s;
    Coats.BurstGrows(s, cfg, w);
    Coats.BankGrows(quiet, cfg, w.toBurst);
  }

  lemma FailedTurn(b: Sequencer, cfg: LegacyConfig, w: World)
    requires CoatOwed(b) && b.phase == Robot && w.robot != WorkDone
    ensures var (t, e) := StepRobot(b, cfg, w); RobotTurn(b, w, t, e)
  {
    BurstKeeps(b, cfg, w);
    BurstCoats(b, cfg, w);
  }

  lemma DoneCoats(b: Sequencer, u: Sequencer, w: World, t: Sequencer)
    requires CoatOwed(b) && w.robot == WorkDone && Coats.Grown(b.parts, u.parts)
    requires t.parts == u.parts[b.occ[O] := b.parts[b.occ[O]].(coats := Due(b.beat), isWet := true)]
    ensures CoatsThen(b, w, t)
  {
  }

  lemma DoneTurn(b: Sequencer, cfg: LegacyConfig, w: World)
    requires CoatOwed(b) && b.phase == Robot && w.robot == WorkDone
    ensures var (t, e) := StepRobot(b, cfg, w); RobotTurn(b, w, t, e)
  {
    BurstKeeps(b, cfg, w);
    BurstCoats(b, cfg, w);
    DoneCoats(b, AfterBurst(b, cfg, w), w, StepRobot(b, cfg, w).0);
  }

  lemma PassedBy(b: Sequencer, cfg: LegacyConfig, w: World)
    requires !CoatOwed(b) && b.phase == Robot
    ensures StepRobot(b, cfg, w) == (b.(phase := Flash), Quiet)
  {
  }

  /** The robot sprays exactly when the part at O owes the beat's coat and sanding did not
      fail; the coat counts only if all of the work succeeded; any failure stops the
      line; and a part that owes nothing is passed by. */
  lemma RobotAnswers(s: Sequencer, cfg: LegacyConfig, w: World)
    requires Running(s, w, Robot)
    ensures
      var b := BankAll(s, cfg, w.dt);
      var (t, e) := Stepped(s, cfg, w);
      RobotTurn(b, w, t, e) && Coats.Grown(s.parts, b.parts)
  {
    var b := BankAll(s, cfg, w.dt);
    BankKeeps(s, cfg, w.dt);
    Coats.BankGrows(s, cfg, w.dt);
    if CoatOwed(b) {
      if w.robot == WorkDone { DoneTurn(b, cfg, w); } else { FailedTurn(b, cfg, w); }
    } else {
      PassedBy(b, cfg, w);
    }
  }

  // ---------------------------------------------------------- departure gate

  predicate FlashDone(s: Sequencer, cfg: LegacyConfig, st: Station) {
    st in s.occ && s.occ[st] in s.parts ==>
      s.parts[s.occ[st]].coats == 0 || s.parts[s.occ[st]].ActiveFlash() >= cfg.flash.flashSeconds
  }

  /** The gate of each beat: an entry beat waits only for the outfeed, the second for the
      flash at F2 and the third for the flash at F1. */
  predicate GateOpens(b: Sequencer, cfg: LegacyConfig, w: World) {
    w.eyes.Some? &&
    match b.beat
    case P1 => F2 in b.occ ==> !w.eyes.value.offload
    case P4 => F2 in b.occ ==> !w.eyes.value.offload
    case P2 => FlashDone(b, cfg, F2)
    case P3 => FlashDone(b, cfg, F1)
  }

  /** The flash wait ends exactly when the gun is clean, the eyes are read and the gate
      opens: on to staging if a part is wanted at an entry beat, else to the move. */
  lemma FlashAnswers(s: Sequencer, cfg: LegacyConfig, w: World)
    requires Running(s, w, Flash)
    ensures
      var b := BankAll(s, cfg, w.dt);
      var (t, e) := Stepped(s, cfg, w);
      if s.pendingClean && w.cleanFails then Stops(b.(pendingClean := false), t, e, CleanFailed)
      else
        && e == Quiet
        && t == b.(pendingClean := false,
                   phase := if !GateOpens(b, cfg, w) then Flash
                            else if (s.beat == P1 || s.beat == P4) && Wanted(s, cfg) then Stage else Transition)
  {
    BankKeeps(s, cfg, w.dt);
  }

  // --------------------------------------------------------------- belt moves

  /** The belt has to bring a part to the work-zero eye. */
  predicate NeedsArrival(s: Sequencer) {
    (s.beat == P2 && F2 in s.occ) || (s.beat == P3 && F1 in s.occ) || ((s.beat == P1 || s.beat == P4) && s.pending.Some?)
  }

  /** The belt moves at all. */
  predicate BeltMoves(s: Sequencer) {
    NeedsArrival(s) || (s.beat != P2 && s.occ != map[])
  }

  /** Who stands where when the belts have done this beat's move. */
  function StandsThen(s: Sequencer, st: Station): Option<PartId> {
    if !BeltMoves(s) then Standing(s, st)
    else if s.beat == P2 then
      if st == O then Standing(s, F2) else if st == F1 then Standing(s, O) else None
    else if s.beat == P3 && F1 in s.occ then
      if st == O then Standing(s, F1) else if st == F2 then Standing(s, O) else None
    else
      if st == F2 then Standing(s, O) else if st == O then s.pending else None
  }

  /** The next beat, with everybody where the belts took them. */
  predicate MovesOn(b: Sequencer, cfg: LegacyConfig, t: Sequencer) {
    && (forall st :: Standing(t, st) == StandsThen(b, st))
    && t.completed == b.completed + (if b.beat != P2 && BeltMoves(b) && F2 in b.occ then [b.occ[F2]] else [])
    && t == b.(occ := t.occ, completed := t.completed, pending := None, beat := BeatAfter(b.beat), phase := t.phase, f1On := t.f1On)
    && t.phase == (if t.occ == map[] && t.queue == [] then Idle else Robot)
    && t.f1On == (if cfg.f1 == RobotDo then F1 in t.occ && t.occ[F1] in t.parts && t.parts[t.occ[F1]].isWet else b.f1On)
  }

  lemma MovedOn(b: Sequencer, cfg: LegacyConfig, w: World)
    requires WellPlaced(b) && b.phase == Transition && Shifted(b, w).1.None?
    ensures MovesOn(b, cfg, StepTransition(b, cfg, w).0) && StepTransition(b, cfg, w).1 == Quiet
  {
    MoveLeaves(b, w);
  }

  /** A belt move fails on a belt that raises, or on an arrival that does not come; else
      every part stands where the beat takes it, the one from F2 is completed at an
      entry beat, and the next beat begins, with F1's fan over a wet part only. */
  lemma TransitionAnswers(s: Sequencer, cfg: LegacyConfig, w: World)
    requires Running(s, w, Transition)
    ensures
      var b := BankAll(s, cfg, w.dt);
      var (t, e) := Stepped(s, cfg, w);
      if BeltMoves(b) && w.belt.Raises? then Stops(b, t, e, BeltFailed)
      else if NeedsArrival(b) && w.belt != Ends(true) then Stops(b, t, e, NeverReachedWorkZero)
      else e == Quiet && MovesOn(b, cfg, t)
  {
    var b := BankAll(s, cfg, w.dt);
    BankKeeps(s, cfg, w.dt);
    BankedSound(s, b);
    ShiftKeeps(b, w);
    MoveFails(b, w);
    if Shifted(b, w).1.None? {
      MovedOn(b, cfg, w);
    }
  }

  /** The shift down the line in full, whoever stands where: F2's part is completed, O's
      goes to F2, and O takes the enterer, if there is one, else F1's. */
  lemma ShiftDownMeans(s: Sequencer, enterer: Option<PartId>)
    requires forall st :: st in s.occ ==> s.occ[st] != EmptyId
    ensures
      var t := MovedDown(s, enterer);
      && t == s.(occ := t.occ, completed := s.completed + (if F2 in s.occ then [s.occ[F2]] else []))
      && Standing(t, F2) == Standing(s, O) && Standing(t, F1) == None
      && Standing(t, O) == (if enterer.Some? then enterer else Standing(s, F1))
      && Standing(t, IN) == Standing(s, IN) && Standing(t, OUT) == Standing(s, OUT)
  {
    assert s.completed + [] == s.completed;
  }

  lemma MoveFails(s: Sequencer, w: World)
    requires WellPlaced(s) && s.phase == Transition
    ensures
      var (t, failed) := Shifted(s, w);
      failed == if BeltMoves(s) && w.belt.Raises? then Some(BeltFailed)
                else if NeedsArrival(s) && w.belt != Ends(true) then Some(NeverReachedWorkZero) else None
  {
  }

  lemma MoveLeaves(s: Sequencer, w: World)
    requires WellPlaced(s) && s.phase == Transition && Shifted(s, w).1.None?
    ensures
      var t := Shifted(s, w).0;
      && t == s.(occ := t.occ, completed := t.completed, pending := None)
      && (forall st :: Standing(t, st) == StandsThen(s, st))
      && t.completed == s.completed + (if s.beat != P2 && BeltMoves(s) && F2 in s.occ then [s.occ[F2]] else [])
  {
    ShiftCases(s, w);
  }

  // --------------------------------------------------------------- whole runs

  /** Past the gate of an entry beat, and not yet moved. */
  predicate PastEntryGate(s: Sequencer) {
    (s.phase == Stage || s.phase == Transition) && (s.beat == P1 || s.beat == P4)
  }

  predicate StillPast(s: Sequencer, t: Sequencer) {
    PastEntryGate(s) && s.occ == t.occ && s.completed == t.completed && s.beat == t.beat
  }

  /** Step j took this beat's line through its gate: nobody stood at F2, or the outfeed
      eye was dark. */
  predicate GatePassedAt(states: seq<Sequencer>, happenings: seq<Happening>, j: nat, k: nat)
    requires j < k < |states| && k <= |happenings|
  {
    && happenings[j].Work? && states[j].phase == Flash && states[j].beat == states[k].beat && states[j].occ == states[k].occ
    && happenings[j].world.eyes.Some? && (F2 in states[j].occ ==> !happenings[j].world.eyes.value.offload)
    && forall m :: j < m <= k ==> StillPast(states[m], states[k])
  }

  /** A happening that leaves the line past its entry gate found it there already, or was
      the step through the gate. */
  lemma GateStep(s: Sequencer, cfg: LegacyConfig, h: Happening)
    requires Sound(s) && PastEntryGate(Reacted(s, cfg, h).0)
    ensures
      var t := Reacted(s, cfg, h).0;
      && t.occ == s.occ && t.beat == s.beat && t.completed == s.completed
      && (!PastEntryGate(s) ==>
           && h.Work? && s.phase == Flash && h.world.eyes.Some?
           && (F2 in s.occ ==> !h.world.eyes.value.offload))
  {
    match h
    case Work(w) => WorkThroughGate(s, cfg, w);
    case Declare(pid, part) =>
    case Halt =>
    case Wait(dt) => BankKeeps(s, cfg, dt);
  }

  lemma WorkThroughGate(s: Sequencer, cfg: LegacyConfig, w: World)
    requires Sound(s) && PastEntryGate(Stepped(s, cfg, w).0)
    ensures
      var t := Stepped(s, cfg, w).0;
      && t.occ == s.occ && t.beat == s.beat && t.completed == s.completed
      && (!PastEntryGate(s) ==> s.phase == Flash && w.eyes.Some? && (F2 in s.occ ==> !w.eyes.value.offload))
  {
    BankKeeps(s, cfg, w.dt);
    StoppedStands(s, cfg, w);
    if s.phase != Halted && !w.feedFails {
      match s.phase
      case Idle => IdleAnswers(s, cfg, w);
      case Robot => RobotAnswers(s, cfg, w);
      case Flash => FlashAnswers(s, cfg, w);
      case Stage => StageAnswers(s, cfg, w);
      case Transition => TransitionAnswers(s, cfg, w);
    }
  }

  lemma {:induction false} GateWasPassed(
    cfg: LegacyConfig, states: seq<Sequencer>, happenings: seq<Happening>, log: seq<Effect>, k: nat) returns (j: nat)
    requires k < |states| && IsLegacyRun(cfg, states, happenings, log) && AtRest(states[0]) && PastEntryGate(states[k])
    ensures j < k && GatePassedAt(states, happenings, j, k)
  {
    LegacyOrder(cfg, states, happenings, log, k - 1);
    GateStep(states[k - 1], cfg, happenings[k - 1]);
    if PastEntryGate(states[k - 1]) {
      j := GateWasPassed(cfg, states, happenings, log, k - 1);
    } else {
      j := k - 1;
    }
  }

  /** Whoever is completed leaves by a belt move of an entry beat. */
  lemma CompletesAtEntry(s: Sequencer, cfg: LegacyConfig, h: Happening)
    requires Sound(s) && Reacted(s, cfg, h).0.completed != s.completed
    ensures h.Work? && s.phase == Transition && (s.beat == P1 || s.beat == P4) && F2 in s.occ
    ensures Reacted(s, cfg, h).0.completed == s.completed + [s.occ[F2]]
  {
    match h
    case Work(w) => WorkCompletes(s, cfg, w);
    case Declare(pid, part) =>
    case Halt =>
    case Wait(dt) => BankKeeps(s, cfg, dt);
  }

  lemma WorkCompletes(s: Sequencer, cfg: LegacyConfig, w: World)
    requires Sound(s) && Stepped(s, cfg, w).0.completed != s.completed
    ensures s.phase == Transition && (s.beat == P1 || s.beat == P4) && F2 in s.occ
    ensures Stepped(s, cfg, w).0.completed == s.completed + [s.occ[F2]]
  {
    BankKeeps(s, cfg, w.dt);
    StoppedStands(s, cfg, w);
    if s.phase != Halted && !w.feedFails {
      match s.phase
      case Idle => IdleAnswers(s, cfg, w);
      case Robot => RobotAnswers(s, cfg, w);
      case Flash => FlashAnswers(s, cfg, w);
      case Stage => StageAnswers(s, cfg, w);
      case Transition => TransitionAnswers(s, cfg, w);
    }
  }

  /** Nothing is driven out under a lit outfeed eye: on every run, when a step completes a
      part, that part stood at F2 as the line went through the gate of this same beat,
      and the eye read at that step was dark. */
  lemma OutfeedWasClear(
    cfg: LegacyConfig, states: seq<Sequencer>, happenings: seq<Happening>, log: seq<Effect>, k: nat) returns (j: nat)
    requires k < |happenings| && IsLegacyRun(cfg, states, happenings, log) && AtRest(states[0])
    requires states[k + 1].completed != states[k].completed
    ensures j < k && happenings[j].Work? && states[j].phase == Flash && states[j].beat == states[k].beat
    ensures F2 in states[j].occ && states[k + 1].completed == states[k].completed + [states[j].occ[F2]]
    ensures happenings[j].world.eyes.Some? && !happenings[j].world.eyes.value.offload
    ensures forall m :: j < m <= k ==> states[m].completed == states[k].completed && states[m].beat == states[k].beat
  {
    LegacyOrder(cfg, states, happenings, log, k);
    CompletesAtEntry(states[k], cfg, happenings[k]);
    j := GateWasPassed(cfg, states, happenings, log, k);
    assert forall m :: j < m <= k ==> StillPast(states[m], states[k]);
  }
}

/** Coat discipline of the legacy line: coat 2 only on a part with one coat and a
    complete flash 1, and two coats on every part that leaves. It rests on every
    P1 entry finding O occupied, which one up-front batch guarantees. */
module LegacyCoats {
  import opened Model
  import opened Schedule
  import opened Timers
  import opened Legacy
  import opened LegacyRuns

  // ------------------------------------------------------------- invariant

  /** The record of the part at a station. */
  function Rec(s: Sequencer, st: Station): Option<PartState> {
    if st in s.occ && s.occ[st] in s.parts then Some(s.parts[s.occ[st]]) else None
  }

  predicate Coats(p: Option<PartState>, low: nat, high: nat) {
    p.Some? ==> low <= p.value.coats <= high
  }

  predicate Flashed(p: Option<PartState>, cfg: LegacyConfig) {
    p.Some? ==> p.value.flash1 >= cfg.flash.flashSeconds
  }

  /** Who may stand where with how many coats, before and after the robot's work. */
  predicate Discipline(
    b: Beat, phase: LegacyPhase, f1: Option<PartState>, o: Option<PartState>, f2: Option<PartState>, cfg: LegacyConfig)
  {
    var done := phase == Flash || phase == Stage || phase == Transition;
    var gated := phase == Transition;
    match b
    case P1 => f1.None? && Coats(o, if done then 1 else 0, 1) && Coats(f2, 2, 2)
    case P2 =>
      f1.None? && Coats(o, if done then 1 else 0, 1) && Coats(f2, 1, 1)
      && (gated ==> Flashed(f2, cfg)) && (o.Some? ==> f2.Some?)
    case P3 =>
      f2.None? && Coats(o, if done then 2 else 1, 2) && Flashed(o, cfg) && Coats(f1, 1, 1)
      && (gated ==> Flashed(f1, cfg)) && (f1.Some? ==> o.Some?)
    case P4 => f1.None? && Coats(o, if done then 2 else 1, 2) && Flashed(o, cfg) && Coats(f2, 2, 2)
  }

  /** No id in two places. */
  predicate Apart(s: Sequencer) {
    && (forall a, b :: a in s.occ && b in s.occ && s.occ[a] == s.occ[b] ==> a == b)
    && (s.pending.Some? ==> s.pending.value !in s.occ.Values)
    && (forall i :: 0 <= i < |s.queue| ==> s.queue[i] !in s.occ.Values && s.pending != Some(s.queue[i]))
    && (forall i, k :: 0 <= i < k < |s.queue| ==> s.queue[i] != s.queue[k])
  }

  /** No coat, and no flash banked towards one. */
  predicate Uncoated(parts: map<PartId, PartState>, pid: PartId) {
    pid in parts ==> parts[pid].coats == 0 && parts[pid].flash1 == 0.0
  }

  predicate Waiting(s: Sequencer) {
    && (s.pending.Some? ==> Uncoated(s.parts, s.pending.value))
    && (forall i :: 0 <= i < |s.queue| ==> Uncoated(s.parts, s.queue[i]))
  }

  predicate Disciplined(s: Sequencer, cfg: LegacyConfig) {
    && Sound(s)
    && (s.phase != Halted ==>
          Apart(s) && Waiting(s) && Discipline(s.beat, s.phase, Rec(s, F1), Rec(s, O), Rec(s, F2), cfg))
  }

  // -------------------------------------------------------------- banking

  /** Banking adds flash to coated parts and nothing else. */
  predicate Grown(before: map<PartId, PartState>, after: map<PartId, PartState>) {
    && after.Keys == before.Keys
    && forall pid :: pid in before ==>
         && after[pid].coats == before[pid].coats && after[pid].flash1 >= before[pid].flash1
         && (before[pid].coats == 0 ==> after[pid].flash1 == before[pid].flash1)
  }

  lemma BankAtGrows(s: Sequencer, cfg: LegacyConfig, st: Station, dt: real)
    requires dt >= 0.0
    ensures Grown(s.parts, BankAt(s, cfg, st, dt).parts)
  {
  }

  lemma GrownTrans(a: map<PartId, PartState>, b: map<PartId, PartState>, c: map<PartId, PartState>)
    requires Grown(a, b) && Grown(b, c)
    ensures Grown(a, c)
  {
  }

  lemma BankGrows(s: Sequencer, cfg: LegacyConfig, dt: real)
    ensures Grown(s.parts, BankAll(s, cfg, dt).parts)
  {
    if dt > 0.0 {
      var t := BankAt(s, cfg, F1, dt);
      BankAtGrows(s, cfg, F1, dt);
      BankAtGrows(t, cfg, F2, dt);
      GrownTrans(s.parts, t.parts, BankAt(t, cfg, F2, dt).parts);
    }
  }

  lemma BurstGrows(s: Sequencer, cfg: LegacyConfig, w: World)
    ensures Grown(s.parts, AfterBurst(s, cfg, w).parts)
  {
    var quiet := if Pauses(s, cfg) then SetF1(s, cfg, false) else s;
    BankGrows(quiet, cfg, w.toBurst);
    BankGrows(BankAll(quiet, cfg, w.toBurst), cfg, w.burst);
    GrownTrans(s.parts, BankAll(quiet, cfg, w.toBurst).parts, AfterBurst(s, cfg, w).parts);
  }

  predicate RecGrown(p: Option<PartState>, q: Option<PartState>) {
    && (p.Some? <==> q.Some?)
    && (p.Some? ==> q.value.coats == p.value.coats && q.value.flash1 >= p.value.flash1)
  }

  lemma DisciplineGrows(
    b: Beat, phase: LegacyPhase, cfg: LegacyConfig,
    f1: Option<PartState>, o: Option<PartState>, f2: Option<PartState>,
    g1: Option<PartState>, p: Option<PartState>, g2: Option<PartState>)
    requires Discipline(b, phase, f1, o, f2, cfg)
    requires RecGrown(f1, g1) && RecGrown(o, p) && RecGrown(f2, g2)
    ensures Discipline(b, phase, g1, p, g2, cfg)
  {
  }

  lemma GrownRec(s: Sequencer, t: Sequencer, st: Station)
    requires t.occ == s.occ && Grown(s.parts, t.parts)
    ensures RecGrown(Rec(s, st), Rec(t, st))
  {
  }

  lemma GrownDiscipline(s: Sequencer, t: Sequencer, cfg: LegacyConfig)
    requires Disciplined(s, cfg) && Sound(t) && s.phase != Halted
    requires t.occ == s.occ && t.queue == s.queue && t.pending == s.pending && t.beat == s.beat && t.phase == s.phase
    requires Grown(s.parts, t.parts)
    ensures Disciplined(t, cfg)
  {
    GrownRec(s, t, F1);
    GrownRec(s, t, O);
    GrownRec(s, t, F2);
    DisciplineGrows(s.beat, s.phase, cfg, Rec(s, F1), Rec(s, O), Rec(s, F2), Rec(t, F1), Rec(t, O), Rec(t, F2));
  }

  lemma BankDisciplined(s: Sequencer, cfg: LegacyConfig, dt: real)
    requires Disciplined(s, cfg)
    ensures Disciplined(BankAll(s, cfg, dt), cfg)
  {
    var t := BankAll(s, cfg, dt);
    BankKeeps(s, cfg, dt);
    BankedSound(s, t);
    BankGrows(s, cfg, dt);
    if s.phase != Halted {
      GrownDiscipline(s, t, cfg);
    }
  }

  // ------------------------------------------------------------ admission

  lemma AdmittedApart(s: Sequencer, w: World, role: Role)
    requires Sound(s) && Apart(s) && Waiting(s) && s.pending.None? && Mints(s, w)
    ensures
      var (t, pid) := Admitted(s, w, role);
      && Apart(t) && Waiting(t) && pid !in t.occ.Values && Uncoated(t.parts, pid) && pid in t.parts
      && (forall i :: 0 <= i < |t.queue| ==> t.queue[i] != pid)
      && (forall st :: Rec(t, st) == Rec(s, st))
  {
    forall st ensures Rec(Admitted(s, w, role).0, st) == Rec(s, st) {
      assert st in s.occ ==> s.occ[st] in s.parts;
    }
  }

  lemma FirstEntry(s: Sequencer, t: Sequencer, pid: PartId, cfg: LegacyConfig)
    requires Apart(t) && Waiting(t) && t.occ == map[] && t.pending.None?
    requires pid in t.parts && Uncoated(t.parts, pid)
    requires forall i :: 0 <= i < |t.queue| ==> t.queue[i] != pid
    ensures
      var r := t.(occ := t.occ[O := pid], beat := P1, phase := Robot);
      Apart(r) && Waiting(r) && Discipline(P1, Robot, Rec(r, F1), Rec(r, O), Rec(r, F2), cfg)
  {
  }

  lemma IdleCases(s: Sequencer, cfg: LegacyConfig, w: World)
    requires s.phase == Idle
    ensures
      var (t, e) := StepIdle(s, cfg, w);
      || t == s
      || t.phase == Halted
      || (s.occ == map[] && (var (u, pid) := Admitted(s, w, LEAD); t == u.(occ := u.occ[O := pid], beat := P1, phase := Robot)))
  {
  }

  lemma IdleDisciplined(s: Sequencer, cfg: LegacyConfig, w: World)
    requires Disciplined(s, cfg) && Mints(s, w) && s.phase == Idle
    requires Sound(StepIdle(s, cfg, w).0)
    ensures Disciplined(StepIdle(s, cfg, w).0, cfg)
  {
    IdleCases(s, cfg, w);
    AdmittedApart(s, w, LEAD);
    AdmittedKeeps(s, w, LEAD);
    var (u, pid) := Admitted(s, w, LEAD);
    FirstEntry(s, u, pid, cfg);
  }

  lemma StagedEntry(t: Sequencer, pid: PartId)
    requires Apart(t) && Waiting(t) && t.pending.None?
    requires pid !in t.occ.Values && Uncoated(t.parts, pid)
    requires forall i :: 0 <= i < |t.queue| ==> t.queue[i] != pid
    ensures var r := t.(pending := Some(pid), phase := Transition); Apart(r) && Waiting(r) && forall st :: Rec(r, st) == Rec(t, st)
  {
  }

  lemma StageDisciplined(s: Sequencer, cfg: LegacyConfig, w: World)
    requires Disciplined(s, cfg) && Mints(s, w) && s.phase == Stage
    requires Sound(StepStage(s, cfg, w).0)
    ensures Disciplined(StepStage(s, cfg, w).0, cfg)
  {
    var role := if s.beat == P1 then TRAIL else LEAD;
    StageCases(s, cfg, w);
    AdmittedApart(s, w, role);
    AdmittedKeeps(s, w, role);
    var (u, pid) := Admitted(s, w, role);
    StagedEntry(u, pid);
  }

  // ------------------------------------------------------------ robot work

  /** What may be sprayed: the next coat, and coat 2 only over a complete flash 1. */
  predicate MaySpray(s: Sequencer, cfg: LegacyConfig, pid: PartId, coat: nat) {
    && pid in s.parts && s.parts[pid].coats + 1 == coat <= 2
    && (coat == 2 ==> s.parts[pid].flash1 >= cfg.flash.flashSeconds)
  }

  lemma NextCoat(s: Sequencer, cfg: LegacyConfig)
    requires Disciplined(s, cfg) && s.phase == Robot && NeedsCoat(s)
    ensures MaySpray(s, cfg, s.occ[O], Spec(s.beat).coat)
  {
    assert Rec(s, O) == Some(s.parts[s.occ[O]]);
  }

  lemma RobotSprays(s: Sequencer, cfg: LegacyConfig, w: World)
    requires Disciplined(s, cfg) && s.phase == Robot
    ensures
      var e := StepRobot(s, cfg, w).1;
      e.sprayed.Some? ==> MaySpray(s, cfg, e.sprayed.value.0, e.sprayed.value.1)
  {
    if NeedsCoat(s) {
      NextCoat(s, cfg);
    }
  }

  lemma CoatedDiscipline(b: Beat, cfg: LegacyConfig, f1: Option<PartState>, o: PartState, f2: Option<PartState>, q: PartState)
    requires Discipline(b, Robot, f1, Some(o), f2, cfg)
    requires q.coats == Spec(b).coat && q.flash1 == o.flash1
    ensures Discipline(b, Flash, f1, Some(q), f2, cfg)
  {
  }

  lemma AlreadyCoated(s: Sequencer, cfg: LegacyConfig)
    requires Disciplined(s, cfg) && s.phase == Robot && !NeedsCoat(s)
    ensures Discipline(s.beat, Flash, Rec(s, F1), Rec(s, O), Rec(s, F2), cfg)
  {
  }

  /** The records once the coat is on: the part at O coated, the others only drier. */
  lemma CoatedRecords(s: Sequencer, t: Sequencer, q: PartState)
    requires Sound(s) && Apart(s) && Waiting(s) && O in s.occ
    requires t.occ == s.occ && t.queue == s.queue && t.pending == s.pending
    requires exists g: map<PartId, PartState> :: Grown(s.parts, g) && t.parts == g[s.occ[O] := q]
    ensures Rec(t, O) == Some(q) && RecGrown(Rec(s, F1), Rec(t, F1)) && RecGrown(Rec(s, F2), Rec(t, F2))
    ensures Apart(t) && Waiting(t)
  {
  }

  lemma WorkDoneDisciplined(s: Sequencer, cfg: LegacyConfig, w: World)
    requires Disciplined(s, cfg) && s.phase == Robot && NeedsCoat(s) && w.robot == WorkDone
    requires Sound(StepRobot(s, cfg, w).0)
    ensures Disciplined(StepRobot(s, cfg, w).0, cfg)
  {
    var t := StepRobot(s, cfg, w).0;
    var o := s.parts[s.occ[O]];
    var q := o.(coats := Spec(s.beat).coat, isWet := true);
    BurstGrows(s, cfg, w);
    BurstKeeps(s, cfg, w);
    assert t.parts == AfterBurst(s, cfg, w).parts[s.occ[O] := q];
    CoatedRecords(s, t, q);
    CoatedDiscipline(s.beat, cfg, Rec(s, F1), o, Rec(s, F2), q);
    DisciplineGrows(s.beat, Flash, cfg, Rec(s, F1), Some(q), Rec(s, F2), Rec(t, F1), Rec(t, O), Rec(t, F2));
  }

  lemma RobotDisciplined(s: Sequencer, cfg: LegacyConfig, w: World)
    requires Disciplined(s, cfg) && s.phase == Robot
    requires Sound(StepRobot(s, cfg, w).0)
    ensures Disciplined(StepRobot(s, cfg, w).0, cfg)
  {
    if !NeedsCoat(s) {
      AlreadyCoated(s, cfg);
      FlashOnly(s);
    } else if w.robot == WorkDone {
      WorkDoneDisciplined(s, cfg, w);
    }
  }

  lemma FlashOnly(s: Sequencer)
    ensures var t := s.(phase := Flash);
      Rec(t, F1) == Rec(s, F1) && Rec(t, O) == Rec(s, O) && Rec(t, F2) == Rec(s, F2)
      && (Apart(s) ==> Apart(t)) && (Waiting(s) ==> Waiting(t))
  {
  }

  // ------------------------------------------------------- gates and belts

  lemma GatePassed(s: Sequencer, cfg: LegacyConfig, eyes: Eyes)
    requires Disciplined(s, cfg) && s.phase == Flash && !DepartureBlocked(s, cfg, eyes)
    ensures Discipline(s.beat, Transition, Rec(s, F1), Rec(s, O), Rec(s, F2), cfg)
    ensures Discipline(s.beat, Stage, Rec(s, F1), Rec(s, O), Rec(s, F2), cfg)
  {
  }

  lemma FlashCases(s: Sequencer, cfg: LegacyConfig, w: World)
    ensures
      var (t, e) := StepFlash(s, cfg, w);
      || t.phase == Halted
      || t == s.(pendingClean := false)
      || (w.eyes.Some? && !DepartureBlocked(s, cfg, w.eyes.value)
          && (t == s.(pendingClean := false, phase := Stage) || t == s.(pendingClean := false, phase := Transition)))
  {
  }

  lemma FlashDisciplined(s: Sequencer, cfg: LegacyConfig, w: World)
    requires Disciplined(s, cfg) && s.phase == Flash
    requires Sound(StepFlash(s, cfg, w).0)
    ensures Disciplined(StepFlash(s, cfg, w).0, cfg)
  {
    FlashCases(s, cfg, w);
    if w.eyes.Some? && !DepartureBlocked(s, cfg, w.eyes.value) {
      GatePassed(s, cfg, w.eyes.value);
    }
    SameParts(s, StepFlash(s, cfg, w).0);
  }

  lemma SameParts(s: Sequencer, t: Sequencer)
    requires t.occ == s.occ && t.parts == s.parts && t.queue == s.queue && t.pending == s.pending
    ensures Rec(t, F1) == Rec(s, F1) && Rec(t, O) == Rec(s, O) && Rec(t, F2) == Rec(s, F2)
    ensures (Apart(s) ==> Apart(t)) && (Waiting(s) ==> Waiting(t))
  {
  }

  /** The condition the schedule silently relies on. */
  predicate EntryFindsO(s: Sequencer) {
    s.phase == Transition && s.beat == P1 && s.pending.Some? ==> O in s.occ
  }

  function PendingRec(s: Sequencer): Option<PartState> {
    if s.pending.Some? && s.pending.value in s.parts then Some(s.parts[s.pending.value]) else None
  }

  /** What the belts do to the records of the three stations. */
  predicate RecordsMove(s: Sequencer, t: Sequencer) {
    if s.beat == P2 && F2 in s.occ then
      Rec(t, F1) == Rec(s, O) && Rec(t, O) == Rec(s, F2) && Rec(t, F2) == None
    else if s.beat == P3 && F1 in s.occ then
      Rec(t, F2) == Rec(s, O) && Rec(t, O) == Rec(s, F1) && Rec(t, F1) == None
    else if s.beat == P2 then
      Rec(t, F1) == Rec(s, F1) && Rec(t, O) == Rec(s, O) && Rec(t, F2) == Rec(s, F2)
    else
      && Rec(t, F1) == None && Rec(t, F2) == Rec(s, O)
      && Rec(t, O) == PendingRec(s)
  }

  lemma ShiftRecords(s: Sequencer, w: World)
    requires WellPlaced(s) && s.phase == Transition && Shifted(s, w).1.None?
    ensures RecordsMove(s, Shifted(s, w).0)
  {
    ShiftCases(s, w);
  }

  lemma DownApart(s: Sequencer)
    requires WellPlaced(s) && Apart(s) && Waiting(s) && F1 !in s.occ
    ensures var t := MovedDown(s.(pending := None), s.pending); Apart(t) && Waiting(t)
  {
  }

  lemma RetreatApart(s: Sequencer)
    requires WellPlaced(s) && Apart(s) && Waiting(s) && s.pending.None? && F2 in s.occ && s.beat == P2
    ensures Apart(Retreated(s)) && Waiting(Retreated(s))
  {
  }

  lemma ReturnApart(s: Sequencer)
    requires WellPlaced(s) && Apart(s) && Waiting(s) && s.pending.None? && F1 in s.occ && s.beat == P3
    ensures Apart(Returned(s)) && Waiting(Returned(s))
  {
  }

  lemma ShiftApart(s: Sequencer, w: World)
    requires WellPlaced(s) && Apart(s) && Waiting(s) && s.phase == Transition && Shifted(s, w).1.None?
    ensures Apart(Shifted(s, w).0) && Waiting(Shifted(s, w).0)
  {
    ShiftCases(s, w);
    if s.beat == P2 && F2 in s.occ { RetreatApart(s); }
    if s.beat == P3 && F1 in s.occ { ReturnApart(s); }
    if F1 !in s.occ { DownApart(s); }
  }

  /** The next beat's discipline follows from this one's, provided a P1 entry found
      a part at O. */
  lemma DisciplineMoves(
    b: Beat, cfg: LegacyConfig, f1: Option<PartState>, o: Option<PartState>, f2: Option<PartState>, e: Option<PartState>)
    requires Discipline(b, Transition, f1, o, f2, cfg) && Coats(e, 0, 0)
    requires b == P1 && e.Some? ==> o.Some?
    requires e.Some? ==> IsEntryBeat(b)
    ensures
      if b == P2 && f2.Some? then Discipline(P3, Robot, o, f2, None, cfg)
      else if b == P3 && f1.Some? then Discipline(P4, Robot, None, f1, o, cfg)
      else if b == P2 then Discipline(P3, Robot, f1, o, f2, cfg)
      else Discipline(NextBeat(b), Robot, None, e, o, cfg)
  {
  }

  lemma NewBeatRecords(s: Sequencer, cfg: LegacyConfig)
    ensures
      var t := NewBeat(s, cfg);
      && (t.phase == Idle || t.phase == Robot) && t.beat == NextBeat(s.beat)
      && Rec(t, F1) == Rec(s, F1) && Rec(t, O) == Rec(s, O) && Rec(t, F2) == Rec(s, F2)
      && (Apart(s) ==> Apart(t)) && (Waiting(s) ==> Waiting(t))
  {
    SameParts(s, NewBeat(s, cfg));
  }

  lemma IdleOrRobot(b: Beat, cfg: LegacyConfig, f1: Option<PartState>, o: Option<PartState>, f2: Option<PartState>)
    requires Discipline(b, Robot, f1, o, f2, cfg)
    ensures Discipline(b, Idle, f1, o, f2, cfg)
  {
  }

  lemma ShiftDiscipline(s: Sequencer, cfg: LegacyConfig, w: World)
    requires Disciplined(s, cfg) && s.phase == Transition && Shifted(s, w).1.None? && EntryFindsO(s)
    ensures var t := Shifted(s, w).0; Discipline(NextBeat(s.beat), Robot, Rec(t, F1), Rec(t, O), Rec(t, F2), cfg)
    ensures Shifted(s, w).0.beat == s.beat
  {
    ShiftRecords(s, w);
    ShiftKeeps(s, w);
    DisciplineMoves(s.beat, cfg, Rec(s, F1), Rec(s, O), Rec(s, F2), PendingRec(s));
    assert forall st :: st in s.occ ==> Rec(s, st).Some?;
  }

  lemma TransitionDisciplined(s: Sequencer, cfg: LegacyConfig, w: World)
    requires Disciplined(s, cfg) && s.phase == Transition && EntryFindsO(s)
    requires Sound(StepTransition(s, cfg, w).0)
    ensures Disciplined(StepTransition(s, cfg, w).0, cfg)
  {
    var (t, failed) := Shifted(s, w);
    if failed.None? {
      ShiftApart(s, w);
      ShiftDiscipline(s, cfg, w);
      NewBeatRecords(t, cfg);
      IdleOrRobot(NextBeat(s.beat), cfg, Rec(t, F1), Rec(t, O), Rec(t, F2));
    }
  }

  // ----------------------------------------------------------- leaving

  /** Whoever a transition takes off the line has both coats. */
  lemma LeavesFinished(s: Sequencer, cfg: LegacyConfig, w: World)
    requires Disciplined(s, cfg) && s.phase == Transition
    ensures
      var t := StepTransition(s, cfg, w).0;
      t.completed == s.completed
      || (F2 in s.occ && s.occ[F2] in s.parts && t.completed == s.completed + [s.occ[F2]] && s.parts[s.occ[F2]].coats == 2)
  {
    ShiftCases(s, w);
    assert F2 in s.occ ==> Rec(s, F2) == Some(s.parts[s.occ[F2]]);
  }

  // -------------------------------------------------------------- one step

  /** The step's spray, judged by the records it found after banking, and the part
      that left, if one did. */
  predicate Proper(s: Sequencer, t: Sequencer, e: Effect, cfg: LegacyConfig) {
    && (e.sprayed.Some? ==> MaySpray(s, cfg, e.sprayed.value.0, e.sprayed.value.1))
    && (t.completed == s.completed
        || (|t.completed| == |s.completed| + 1 && t.completed[..|s.completed|] == s.completed
            && t.completed[|s.completed|] in s.parts && s.parts[t.completed[|s.completed|]].coats == 2))
  }

  lemma OnlyTransitionsComplete(s: Sequencer, cfg: LegacyConfig, w: World)
    requires s.phase != Transition && s.phase != Robot
    ensures var (t, e) := Dispatched(s, cfg, w); t.completed == s.completed && e.sprayed.None?
  {
  }

  lemma DispatchProper(s: Sequencer, cfg: LegacyConfig, w: World)
    requires Disciplined(s, cfg)
    ensures var (t, e) := Dispatched(s, cfg, w); Proper(s, t, e, cfg)
  {
    if s.phase == Robot {
      RobotSprays(s, cfg, w);
      RobotTouches(s, cfg, w);
    } else if s.phase == Transition {
      LeavesFinished(s, cfg, w);
    } else {
      OnlyTransitionsComplete(s, cfg, w);
    }
  }

  lemma DispatchDisciplined(s: Sequencer, cfg: LegacyConfig, w: World)
    requires Disciplined(s, cfg) && Mints(s, w) && EntryFindsO(s)
    ensures Disciplined(Dispatched(s, cfg, w).0, cfg)
  {
    DispatchKeeps(s, cfg, w);
    if s.phase != Halted && !w.feedFails {
      match s.phase
      case Idle => IdleDisciplined(s, cfg, w);
      case Robot => RobotDisciplined(s, cfg, w);
      case Flash => FlashDisciplined(s, cfg, w);
      case Stage => StageDisciplined(s, cfg, w);
      case Transition => TransitionDisciplined(s, cfg, w);
    }
  }

  lemma DeclareApart(s: Sequencer, pid: PartId, part: PartState)
    requires WellPlaced(s) && Apart(s) && Waiting(s) && part.coats == 0 && part.flash1 == 0.0
    ensures Apart(Declared(s, pid, part)) && Waiting(Declared(s, pid, part))
  {
  }

  lemma DeclareRecords(s: Sequencer, pid: PartId, part: PartState, st: Station)
    requires WellPlaced(s)
    ensures Rec(Declared(s, pid, part), st) == Rec(s, st)
  {
  }

  lemma DeclareDisciplined(s: Sequencer, cfg: LegacyConfig, pid: PartId, part: PartState)
    requires Disciplined(s, cfg) && pid != EmptyId && part.coats == 0 && part.flash1 == 0.0
    ensures Disciplined(Declared(s, pid, part), cfg)
  {
    DeclaredKeeps(s, pid, part);
    if s.phase != Halted {
      DeclareApart(s, pid, part);
      DeclareRecords(s, pid, part, F1);
      DeclareRecords(s, pid, part, O);
      DeclareRecords(s, pid, part, F2);
    }
  }

  lemma ReactedDisciplined(s: Sequencer, cfg: LegacyConfig, h: Happening)
    requires Disciplined(s, cfg) && Plausible(s, h) && EntryFindsO(s)
    ensures Disciplined(Reacted(s, cfg, h).0, cfg)
  {
    match h
    case Work(w) =>
      BankDisciplined(s, cfg, w.dt);
      BankKeeps(s, cfg, w.dt);
      DispatchDisciplined(BankAll(s, cfg, w.dt), cfg, w);
    case Declare(pid, part) => DeclareDisciplined(s, cfg, pid, part);
    case Halt => FaultsOnly(s, Fault(s, OperatorHalt));
    case Wait(dt) => BankDisciplined(s, cfg, dt);
  }

  // ------------------------------------------------------------ whole runs

  lemma RestDisciplined(s: Sequencer, cfg: LegacyConfig)
    requires AtRest(s) && Apart(s) && Waiting(s)
    ensures Disciplined(s, cfg)
  {
  }

  lemma {:induction false} RunDisciplined(
    cfg: LegacyConfig, states: seq<Sequencer>, happenings: seq<Happening>, log: seq<Effect>, k: nat)
    requires k < |states| && IsLegacyRun(cfg, states, happenings, log)
    requires AtRest(states[0]) && Apart(states[0]) && Waiting(states[0])
    requires forall i :: 0 <= i < k ==> EntryFindsO(states[i])
    ensures Disciplined(states[k], cfg)
  {
    if k == 0 {
      RestDisciplined(states[0], cfg);
    } else {
      RunDisciplined(cfg, states, happenings, log, k - 1);
      ReactedDisciplined(states[k - 1], cfg, happenings[k - 1]);
    }
  }

  /** The coat discipline of the legacy line: on every run in which each P1 entry
      finds O occupied, every spray is the part's next coat, coat 2 meets a complete
      flash 1, and every part that leaves has two coats. */
  lemma LegacyCoatDiscipline(
    cfg: LegacyConfig, states: seq<Sequencer>, happenings: seq<Happening>, log: seq<Effect>, k: nat)
    requires k < |happenings| && IsLegacyRun(cfg, states, happenings, log) && happenings[k].Work?
    requires AtRest(states[0]) && Apart(states[0]) && Waiting(states[0])
    requires forall i :: 0 <= i < k ==> EntryFindsO(states[i])
    ensures Proper(BankAll(states[k], cfg, happenings[k].world.dt), states[k + 1], log[k], cfg)
  {
    RunDisciplined(cfg, states, happenings, log, k);
    BankDisciplined(states[k], cfg, happenings[k].world.dt);
    DispatchProper(BankAll(states[k], cfg, happenings[k].world.dt), cfg, happenings[k].world);
  }

  // ---------------------------------------------------- one up-front batch

  /** With intake off and nothing declared later, an entry is only ever skipped for
      good: once O is empty at P1 there is nobody left to enter. */
  predicate BatchFits(s: Sequencer) {
    s.phase != Halted && s.phase != Idle ==>
      && (s.beat == P1 && O !in s.occ ==> s.queue == [] && s.pending.None?)
      && (s.phase == Transition && IsEntryBeat(s.beat) && s.pending.None? ==> s.queue == [])
      && (s.phase == Stage ==> s.queue != [])
  }

  lemma BatchIdle(s: Sequencer, cfg: LegacyConfig, w: World)
    requires BatchFits(s) && s.phase == Idle
    ensures BatchFits(StepIdle(s, cfg, w).0)
  {
    IdleCases(s, cfg, w);
  }

  lemma BatchRobot(s: Sequencer, cfg: LegacyConfig, w: World)
    requires BatchFits(s) && s.phase == Robot
    ensures BatchFits(StepRobot(s, cfg, w).0)
  {
    RobotTouches(s, cfg, w);
  }

  lemma BatchFlash(s: Sequencer, cfg: LegacyConfig, w: World)
    requires BatchFits(s) && s.phase == Flash && !cfg.continuous
    ensures BatchFits(StepFlash(s, cfg, w).0)
  {
  }

  lemma BatchStage(s: Sequencer, cfg: LegacyConfig, w: World)
    requires BatchFits(s) && s.phase == Stage && s.pending.None? && !cfg.continuous
    ensures BatchFits(StepStage(s, cfg, w).0)
  {
    StageCases(s, cfg, w);
  }

  lemma BatchTransition(s: Sequencer, cfg: LegacyConfig, w: World)
    requires BatchFits(s) && WellPlaced(s) && s.phase == Transition
    ensures BatchFits(StepTransition(s, cfg, w).0)
  {
    ShiftKeeps(s, w);
    ShiftCases(s, w);
  }

  lemma BatchKeeps(s: Sequencer, cfg: LegacyConfig, w: World)
    requires BatchFits(s) && Sound(s) && !cfg.continuous
    ensures BatchFits(Dispatched(s, cfg, w).0)
  {
    if s.phase != Halted && !w.feedFails {
      match s.phase
      case Idle => BatchIdle(s, cfg, w);
      case Robot => BatchRobot(s, cfg, w);
      case Flash => BatchFlash(s, cfg, w);
      case Stage => BatchStage(s, cfg, w);
      case Transition => BatchTransition(s, cfg, w);
    }
  }

  lemma BatchReacted(s: Sequencer, cfg: LegacyConfig, h: Happening)
    requires BatchFits(s) && Sound(s) && Plausible(s, h) && !cfg.continuous && !h.Declare?
    ensures BatchFits(Reacted(s, cfg, h).0)
  {
    if h.Work? {
      var b := BankAll(s, cfg, h.world.dt);
      BankKeeps(s, cfg, h.world.dt);
      BankedSound(s, b);
      BatchKeeps(b, cfg, h.world);
    } else if h.Wait? {
      BankKeeps(s, cfg, h.dt);
    }
  }

  lemma {:induction false} BatchRun(
    cfg: LegacyConfig, states: seq<Sequencer>, happenings: seq<Happening>, log: seq<Effect>, k: nat)
    requires k < |states| && IsLegacyRun(cfg, states, happenings, log) && AtRest(states[0])
    requires !cfg.continuous && forall i :: 0 <= i < |happenings| ==> !happenings[i].Declare?
    ensures BatchFits(states[k]) && EntryFindsO(states[k])
  {
    if k > 0 {
      BatchRun(cfg, states, happenings, log, k - 1);
      LegacyOrder(cfg, states, happenings, log, k - 1);
      BatchReacted(states[k - 1], cfg, happenings[k - 1]);
    }
  }

  /** One batch declared up front with intake off never meets the exception, so its
      coats are disciplined on every run. */
  lemma BatchCoatDiscipline(
    cfg: LegacyConfig, states: seq<Sequencer>, happenings: seq<Happening>, log: seq<Effect>, k: nat)
    requires k < |happenings| && IsLegacyRun(cfg, states, happenings, log) && happenings[k].Work?
    requires AtRest(states[0]) && Apart(states[0]) && Waiting(states[0])
    requires !cfg.continuous && forall i :: 0 <= i < |happenings| ==> !happenings[i].Declare?
    ensures Proper(BankAll(states[k], cfg, happenings[k].world.dt), states[k + 1], log[k], cfg)
  {
    forall i | 0 <= i < k ensures EntryFindsO(states[i]) {
      BatchRun(cfg, states, happenings, log, i);
    }
    LegacyCoatDiscipline(cfg, states, happenings, log, k);
  }

  // ------------------------------------------------ the condition is needed

  /** Nothing goes wrong in this step. */
  predicate Smooth(w: World) {
    !w.feedFails && w.eyes.Some? && w.belt == Ends(true) && w.robot == WorkDone && !w.cleanFails
  }

  /** The part stands alone at O. */
  predicate Alone(s: Sequencer, pid: PartId, b: Beat, phase: LegacyPhase, coats: nat, flash1: real) {
    && s.occ == map[O := pid] && pid != EmptyId && pid in s.parts && s.beat == b && s.phase == phase && s.pending.None?
    && s.parts[pid].coats == coats && s.parts[pid].flash1 == flash1
    && (b == P2 ==> !s.pendingClean)
  }

  lemma AloneBanksNothing(s: Sequencer, cfg: LegacyConfig, dt: real)
    requires s.occ.Keys == {O}
    ensures BankAll(s, cfg, dt) == s
  {
  }

  lemma EnteredAlone(s: Sequencer, cfg: LegacyConfig, w: World)
    requires Disciplined(s, cfg) && s.phase == Transition && s.beat == P1 && s.pending.Some? && O !in s.occ
    requires Smooth(w) && !s.pendingClean
    ensures
      var pid := s.pending.value;
      pid in s.parts && Alone(Dispatched(s, cfg, w).0, pid, P2, Robot, 0, s.parts[pid].flash1)
  {
    var t := MovedDown(s.(pending := None), s.pending);
    assert t.occ == map[O := s.pending.value] && O in t.occ;
  }

  lemma AloneWorks(s: Sequencer, cfg: LegacyConfig, w: World, pid: PartId, b: Beat, flash1: real)
    requires (b == P2 && Alone(s, pid, P2, Robot, 0, flash1)) || (b == P3 && Alone(s, pid, P3, Robot, 1, flash1))
    requires Smooth(w)
    ensures
      var (t, e) := Stepped(s, cfg, w);
      e.sprayed == Some((pid, if b == P2 then 1 else 2)) && (b == P2 ==> Alone(t, pid, P2, Flash, 1, flash1))
  {
    AloneBanksNothing(s, cfg, w.dt);
    AloneBanksNothing(s, cfg, w.toBurst);
    AloneBanksNothing(s, cfg, w.burst);
  }

  lemma AlonePasses(s: Sequencer, cfg: LegacyConfig, w: World, pid: PartId, flash1: real)
    requires Smooth(w)
    ensures Alone(s, pid, P2, Flash, 1, flash1) ==> Alone(Stepped(s, cfg, w).0, pid, P2, Transition, 1, flash1)
    ensures Alone(s, pid, P2, Transition, 1, flash1) ==> Alone(Stepped(s, cfg, w).0, pid, P3, Robot, 1, flash1)
  {
    if s.occ == map[O := pid] {
      AloneBanksNothing(s, cfg, w.dt);
    }
  }

  /** The exception: a part that enters at P1 over an empty O keeps O, is given coat 1
      and then, two beats on, coat 2, with nothing banked between them: coat 2 then goes
      on over no flash at all. */
  lemma LoneEntrySkipsFlash(s: Sequencer, cfg: LegacyConfig, w1: World, w2: World, w3: World, w4: World, w5: World)
    requires Disciplined(s, cfg) && s.phase == Transition && s.beat == P1 && s.pending.Some? && O !in s.occ
    requires !s.pendingClean
    requires Smooth(w1) && Smooth(w2) && Smooth(w3) && Smooth(w4) && Smooth(w5)
    ensures
      var pid := s.pending.value;
      var s1 := Dispatched(s, cfg, w1).0;
      var s2 := Stepped(s1, cfg, w2).0;
      var s3 := Stepped(s2, cfg, w3).0;
      var s4 := Stepped(s3, cfg, w4).0;
      && Stepped(s4, cfg, w5).1.sprayed == Some((pid, 2))
      && pid in s4.parts && s4.parts[pid].flash1 == 0.0 && BankAll(s4, cfg, w5.dt) == s4
      && (cfg.flash.flashSeconds > 0.0 ==> !MaySpray(s4, cfg, pid, 2))
  {
    var pid := s.pending.value;
    var s1 := Dispatched(s, cfg, w1).0;
    EnteredAlone(s, cfg, w1);
    AloneWorks(s1, cfg, w2, pid, P2, 0.0);
    var s2 := Stepped(s1, cfg, w2).0;
    AlonePasses(s2, cfg, w3, pid, 0.0);
    var s3 := Stepped(s2, cfg, w3).0;
    AlonePasses(s3, cfg, w4, pid, 0.0);
    AloneBanksNothing(Stepped(s3, cfg, w4).0, cfg, w5.dt);
    AloneWorks(Stepped(s3, cfg, w4).0, cfg, w5, pid, P3, 0.0);
  }

  // ------------------------------------------------- a run that meets it

  /** Steps one after another, each with the world it meets. */
  function Played(s: Sequencer, cfg: LegacyConfig, worlds: seq<World>): Sequencer
    decreases |worlds|
  {
    if worlds == [] then s else Stepped(Played(s, cfg, worlds[..|worlds| - 1]), cfg, worlds[|worlds| - 1]).0
  }

  predicate MintsThroughout(s: Sequencer, cfg: LegacyConfig, worlds: seq<World>)
    decreases |worlds|
  {
    worlds == [] ||
    (MintsThroughout(s, cfg, worlds[..|worlds| - 1])
     && Mints(Played(s, cfg, worlds[..|worlds| - 1]), worlds[|worlds| - 1]))
  }

  lemma PlayedGrows(s: Sequencer, cfg: LegacyConfig, worlds: seq<World>, w: World)
    ensures Played(s, cfg, worlds + [w]) == Stepped(Played(s, cfg, worlds), cfg, w).0
    ensures MintsThroughout(s, cfg, worlds + [w]) <==> MintsThroughout(s, cfg, worlds) && Mints(Played(s, cfg, worlds), w)
  {
    var longer := worlds + [w];
    assert longer[..|longer| - 1] == worlds;
  }

  lemma RunExtends(cfg: LegacyConfig, states: seq<Sequencer>, happenings: seq<Happening>, log: seq<Effect>, w: World)
    requires IsLegacyRun(cfg, states, happenings, log) && Mints(states[|happenings|], w)
    ensures
      var (t, e) := Stepped(states[|happenings|], cfg, w);
      IsLegacyRun(cfg, states + [t], happenings + [Work(w)], log + [e])
  {
  }

  /** Such steps are a run. */
  lemma {:induction false} PlayedIsRun(s: Sequencer, cfg: LegacyConfig, worlds: seq<World>)
    returns (states: seq<Sequencer>, happenings: seq<Happening>, log: seq<Effect>)
    requires MintsThroughout(s, cfg, worlds)
    ensures IsLegacyRun(cfg, states, happenings, log) && |happenings| == |worlds|
    ensures states[0] == s && states[|worlds|] == Played(s, cfg, worlds)
    ensures forall k :: 0 <= k < |happenings| ==> happenings[k].Work?
    decreases |worlds|
  {
    if worlds == [] {
      states, happenings, log := [s], [], [];
    } else {
      var init, w := worlds[..|worlds| - 1], worlds[|worlds| - 1];
      assert worlds == init + [w];
      PlayedGrows(s, cfg, init, w);
      states, happenings, log := PlayedIsRun(s, cfg, init);
      RunExtends(cfg, states, happenings, log, w);
      var (t, e) := Stepped(states[|init|], cfg, w);
      states, happenings, log := states + [t], happenings + [Work(w)], log + [e];
    }
  }

  /** A step in which all goes well and a part waits at the junction. */
  const Calm := World(0.0, false, Some(Eyes(true, true, false)), Ends(true), Ends(true), Ends(true), WorkDone, 0.0, 0.0,
                      false, CUBE, Id(9))

  /** The same with nothing at the junction. */
  const Empty := Calm.(eyes := Some(Eyes(true, false, false)))

  function Mode(flash: Config): LegacyConfig {
    LegacyConfig(flash, AlwaysOn, true)
  }

  function Trail(coats: nat, flash1: real, wet: bool): PartState {
    PartState(Id(0), CUBE, LEAD, 0, coats, flash1, 0.0, wet)
  }

  const Late := PartState(Id(1), CUBE, TRAIL, 0, 0, 0.0, 0.0, false)

  /** Id 1 still in the queue, id 0 somewhere. */
  function Day(first: PartState, occ: map<Station, PartId>, completed: seq<PartId>, beat: Beat, phase: LegacyPhase): Sequencer {
    Sequencer(map[Id(0) := first, Id(1) := Late], occ, [Id(1)], completed, -1, None, false, beat, phase, None, true)
  }

  /** Two declared parts in front of an empty line. */
  const Morning := Day(Trail(0, 0.0, false), map[], [], P1, Idle).(queue := [Id(0), Id(1)])

  /** The late part has just been staged in P1, with nothing on the line. */
  function Starved(flash: Config): Sequencer {
    Day(Trail(2, flash.flashSeconds, true), map[], [Id(0)], P1, Transition).(queue := [], pending := Some(Id(1)))
  }

  /** The run so far has come to `t`. */
  predicate ComesTo(cfg: LegacyConfig, worlds: seq<World>, t: Sequencer) {
    MintsThroughout(Morning, cfg, worlds) && Played(Morning, cfg, worlds) == t
  }

  lemma ThenComesTo(cfg: LegacyConfig, worlds: seq<World>, s: Sequencer, w: World, t: Sequencer)
    requires ComesTo(cfg, worlds, s) && Mints(s, w) && Stepped(s, cfg, w).0 == t
    ensures ComesTo(cfg, worlds + [w], t)
  {
    PlayedGrows(Morning, cfg, worlds, w);
  }

  /** P1: the first part is coated, nobody follows, and it moves to F2. */
  lemma FirstBeat(flash: Config) returns (worlds: seq<World>)
    ensures ComesTo(Mode(flash), worlds, Day(Trail(1, 0.0, true), map[F2 := Id(0)], [], P2, Robot))
  {
    var cfg := Mode(flash);
    var s1 := Day(Trail(0, 0.0, false), map[O := Id(0)], [], P1, Robot);
    var s2 := Day(Trail(1, 0.0, true), map[O := Id(0)], [], P1, Flash);
    ThenComesTo(cfg, [], Morning, Calm, s1);
    CoatsAtO(cfg, s1, s2);
    ThenComesTo(cfg, [] + [Calm], s1, Calm, s2);
    worlds := [] + [Calm] + [Calm];
    worlds := PassesEntry(cfg, worlds, s2);
    var s4 := s2.(phase := Transition);
    MovesDown(s4, Day(Trail(1, 0.0, true), map[F2 := Id(0)], [], P2, Robot), cfg);
    ThenComesTo(cfg, worlds, s4, Calm, Day(Trail(1, 0.0, true), map[F2 := Id(0)], [], P2, Robot));
    worlds := worlds + [Calm];
  }

  lemma CoatsAtO(cfg: LegacyConfig, s: Sequencer, t: Sequencer)
    requires cfg.f1 == AlwaysOn && s.phase == Robot && s.occ == map[O := Id(0)] && Id(0) in s.parts
    requires s.parts[Id(0)].coats < Spec(s.beat).coat
    requires t == s.(parts := s.parts[Id(0) := s.parts[Id(0)].(coats := Spec(s.beat).coat, isWet := true)],
                     pendingClean := Spec(s.beat).cleanGun, phase := Flash)
    ensures Stepped(s, cfg, Calm).0 == t
  {
  }

  /** At an entry beat nobody stands at the junction: the entry is skipped. */
  lemma PassesEntry(cfg: LegacyConfig, before: seq<World>, s: Sequencer) returns (worlds: seq<World>)
    requires ComesTo(cfg, before, s) && cfg.continuous && s.phase == Flash && IsEntryBeat(s.beat) && Id(9) !in s.parts
    requires s.pending.None? && !s.pendingClean
    ensures ComesTo(cfg, worlds, s.(phase := Transition))
  {
    ThenComesTo(cfg, before, s, Calm, s.(phase := Stage));
    worlds := before + [Calm];
    ThenComesTo(cfg, worlds, s.(phase := Stage), Empty, s.(phase := Transition));
    worlds := worlds + [Empty];
  }

  lemma MovesDown(s: Sequencer, t: Sequencer, cfg: LegacyConfig)
    requires cfg.f1 == AlwaysOn && s.phase == Transition && s.beat != P2 && s.pending.None? && s.queue != []
    requires s.occ == map[O := Id(0)] || s.occ == map[F2 := Id(0)]
    requires t == s.(beat := NextBeat(s.beat), phase := Robot,
                     occ := if O in s.occ then map[F2 := Id(0)] else map[],
                     completed := if O in s.occ then s.completed else s.completed + [Id(0)])
    ensures Stepped(s, cfg, Calm).0 == t
  {
    assert MovedDown(s, None).occ == t.occ;
  }

  /** P2: it flashes at F2 and comes back to O. */
  lemma SecondBeat(flash: Config) returns (worlds: seq<World>)
    requires flash.flashSeconds > 0.0
    ensures ComesTo(Mode(flash), worlds, Day(Trail(1, flash.flashSeconds, false), map[O := Id(0)], [], P3, Robot))
  {
    var cfg := Mode(flash);
    var s := Day(Trail(1, 0.0, true), map[F2 := Id(0)], [], P2, Robot);
    var dried := Day(Trail(1, flash.flashSeconds, false), map[F2 := Id(0)], [], P2, Transition);
    worlds := FirstBeat(flash);
    ThenComesTo(cfg, worlds, s, Calm, s.(phase := Flash));
    worlds := worlds + [Calm];
    DriesAtF2(flash, s.(phase := Flash), dried);
    ThenComesTo(cfg, worlds, s.(phase := Flash), Calm.(dt := flash.flashSeconds), dried);
    worlds := worlds + [Calm.(dt := flash.flashSeconds)];
    ComesBack(cfg, dried);
    ThenComesTo(cfg, worlds, dried, Calm, dried.(occ := map[O := Id(0)], beat := P3, phase := Robot));
    worlds := worlds + [Calm];
  }

  lemma DriesAtF2(flash: Config, s: Sequencer, t: Sequencer)
    requires flash.flashSeconds > 0.0
    requires s == Day(Trail(1, 0.0, true), map[F2 := Id(0)], [], P2, Flash)
    requires t == Day(Trail(1, flash.flashSeconds, false), map[F2 := Id(0)], [], P2, Transition)
    ensures Stepped(s, Mode(flash), Calm.(dt := flash.flashSeconds)).0 == t
  {
    assert BankAll(s, Mode(flash), flash.flashSeconds).parts == t.parts;
  }

  lemma ComesBack(cfg: LegacyConfig, s: Sequencer)
    requires cfg.f1 == AlwaysOn && s.phase == Transition && s.beat == P2 && s.occ == map[F2 := Id(0)]
    ensures Stepped(s, cfg, Calm).0 == s.(occ := map[O := Id(0)], beat := P3, phase := Robot)
  {
    assert Retreated(s).occ == map[O := Id(0)];
  }

  /** P3: it is coated again and moves to F2. */
  lemma ThirdBeat(flash: Config) returns (worlds: seq<World>)
    requires flash.flashSeconds > 0.0
    ensures ComesTo(Mode(flash), worlds, Day(Trail(2, flash.flashSeconds, true), map[F2 := Id(0)], [], P4, Robot))
  {
    var cfg := Mode(flash);
    var s := Day(Trail(1, flash.flashSeconds, false), map[O := Id(0)], [], P3, Robot);
    var coated := Day(Trail(2, flash.flashSeconds, true), map[O := Id(0)], [], P3, Flash);
    worlds := SecondBeat(flash);
    CoatsAtO(cfg, s, coated.(pendingClean := true));
    ThenComesTo(cfg, worlds, s, Calm, coated.(pendingClean := true));
    worlds := worlds + [Calm];
    ThenComesTo(cfg, worlds, coated.(pendingClean := true), Calm, coated.(phase := Transition));
    worlds := worlds + [Calm];
    var t := Day(Trail(2, flash.flashSeconds, true), map[F2 := Id(0)], [], P4, Robot);
    MovesDown(coated.(phase := Transition), t, cfg);
    ThenComesTo(cfg, worlds, coated.(phase := Transition), Calm, t);
    worlds := worlds + [Calm];
  }

  /** P4: nobody stands at the junction again, and it leaves. */
  lemma FourthBeat(flash: Config) returns (worlds: seq<World>)
    requires flash.flashSeconds > 0.0
    ensures ComesTo(Mode(flash), worlds, Day(Trail(2, flash.flashSeconds, true), map[], [Id(0)], P1, Robot))
  {
    var cfg := Mode(flash);
    var s := Day(Trail(2, flash.flashSeconds, true), map[F2 := Id(0)], [], P4, Robot);
    worlds := ThirdBeat(flash);
    ThenComesTo(cfg, worlds, s, Calm, s.(phase := Flash));
    worlds := PassesEntry(cfg, worlds + [Calm], s.(phase := Flash));
    var t := Day(Trail(2, flash.flashSeconds, true), map[], [Id(0)], P1, Robot);
    MovesDown(s.(phase := Transition), t, cfg);
    ThenComesTo(cfg, worlds, s.(phase := Transition), Calm, t);
    worlds := worlds + [Calm];
  }

  /** P1 again: the late part is staged with nothing on the line. */
  lemma StarvedIsReached(flash: Config) returns (worlds: seq<World>)
    requires flash.flashSeconds > 0.0
    ensures ComesTo(Mode(flash), worlds, Starved(flash))
  {
    var cfg := Mode(flash);
    var s := Day(Trail(2, flash.flashSeconds, true), map[], [Id(0)], P1, Robot);
    worlds := FourthBeat(flash);
    ThenComesTo(cfg, worlds, s, Calm, s.(phase := Flash));
    worlds := worlds + [Calm];
    ThenComesTo(cfg, worlds, s.(phase := Flash), Calm, s.(phase := Stage));
    worlds := worlds + [Calm];
    ThenComesTo(cfg, worlds, s.(phase := Stage), Calm, Starved(flash));
    worlds := worlds + [Calm];
  }

  lemma StarvedIsDisciplined(flash: Config)
    ensures Disciplined(Starved(flash), Mode(flash)) && !EntryFindsO(Starved(flash))
  {
  }

  lemma MorningIsRest()
    ensures AtRest(Morning) && Apart(Morning) && Waiting(Morning)
  {
  }

  /** The last thing a run did was to spray the part's coat 2 with its flash 1 owed. */
  predicate EndsInBadSpray(cfg: LegacyConfig, states: seq<Sequencer>, log: seq<Effect>, pid: PartId)
    requires 0 < |log| < |states|
  {
    var s := states[|log| - 1];
    && log[|log| - 1].sprayed == Some((pid, 2)) && pid in s.parts
    && s.parts[pid].coats == 1 && s.parts[pid].flash1 < cfg.flash.flashSeconds
  }

  lemma LastStep(cfg: LegacyConfig, worlds: seq<World>, s: Sequencer, w: World)
    returns (states: seq<Sequencer>, happenings: seq<Happening>, log: seq<Effect>)
    requires ComesTo(cfg, worlds, s) && Mints(s, w)
    ensures IsLegacyRun(cfg, states, happenings, log) && states[0] == Morning && |log| == |worlds| + 1
    ensures states[|worlds|] == s && log[|worlds|] == Stepped(s, cfg, w).1
    ensures forall k :: 0 <= k < |happenings| ==> happenings[k].Work?
  {
    states, happenings, log := PlayedIsRun(Morning, cfg, worlds);
    RunExtends(cfg, states, happenings, log, w);
    var (t, e) := Stepped(s, cfg, w);
    states, happenings, log := states + [t], happenings + [Work(w)], log + [e];
  }

  lemma FourStepsOn(cfg: LegacyConfig, before: seq<World>, s: Sequencer) returns (worlds: seq<World>, t: Sequencer)
    requires ComesTo(cfg, before, s) && Disciplined(s, cfg) && !EntryFindsO(s) && !s.pendingClean && Id(9) !in s.parts
    ensures ComesTo(cfg, worlds, t) && t.parts.Keys == s.parts.Keys
    ensures Alone(t, s.pending.value, P3, Robot, 1, 0.0)
  {
    var pid := s.pending.value;
    var s1 := Stepped(s, cfg, Calm).0;
    EnteredAlone(s, cfg, Calm);
    ThenComesTo(cfg, before, s, Calm, s1);
    var s2 := Stepped(s1, cfg, Calm).0;
    AloneWorks(s1, cfg, Calm, pid, P2, 0.0);
    AloneKeeps(s1, cfg, pid);
    ThenComesTo(cfg, before + [Calm], s1, Calm, s2);
    var s3 := Stepped(s2, cfg, Calm).0;
    AlonePasses(s2, cfg, Calm, pid, 0.0);
    AloneKeeps(s2, cfg, pid);
    ThenComesTo(cfg, before + [Calm] + [Calm], s2, Calm, s3);
    t := Stepped(s3, cfg, Calm).0;
    AlonePasses(s3, cfg, Calm, pid, 0.0);
    AloneKeeps(s3, cfg, pid);
    ThenComesTo(cfg, before + [Calm] + [Calm] + [Calm], s3, Calm, t);
    worlds := before + [Calm] + [Calm] + [Calm] + [Calm];
  }

  lemma AloneKeeps(s: Sequencer, cfg: LegacyConfig, pid: PartId)
    requires s.occ == map[O := pid] && pid in s.parts && s.phase in {Robot, Flash, Transition} && !(s.phase == Flash && IsEntryBeat(s.beat))
    ensures Stepped(s, cfg, Calm).0.parts.Keys == s.parts.Keys
  {
    AloneBanksNothing(s, cfg, 0.0);
  }

  /** The violation, reached: with intake continuous and any positive flash time, two
      parts declared in front of an empty line, the second late at the junction at the
      first P1 and again at P4, end in a coat 2 sprayed on a part that has not flashed. */
  lemma LateFollowerIsUnderFlashed(flash: Config)
    returns (states: seq<Sequencer>, happenings: seq<Happening>, log: seq<Effect>)
    requires flash.flashSeconds > 0.0
    ensures IsLegacyRun(Mode(flash), states, happenings, log) && log != [] && states[0] == Morning
    ensures AtRest(Morning) && Apart(Morning) && Waiting(Morning)
    ensures forall k :: 0 <= k < |happenings| ==> happenings[k].Work?
    ensures EndsInBadSpray(Mode(flash), states, log, Id(1))
  {
    var cfg := Mode(flash);
    MorningIsRest();
    StarvedIsDisciplined(flash);
    var day := StarvedIsReached(flash);
    var worlds, t := FourStepsOn(cfg, day, Starved(flash));
    states, happenings, log := LastStep(cfg, worlds, t, Calm);
    AloneWorks(t, cfg, Calm, Id(1), P3, 0.0);
  }
}

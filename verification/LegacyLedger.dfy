/** The flash ledger of the legacy line: on every run a part's counters hold exactly the
    fan-on time of its coats, the sanding span and the burst counted as the sequencer
    counts them. */
module LegacyLedger {
  import opened Model
  import opened Timers
  import opened Legacy
  import opened LegacyRuns
  import opened LegacyCoats
  import opened LegacyRules

  // ------------------------------------------------------------ one banking

  /** F2's fan always runs; F1's unless the robot switches it and has it off. */
  predicate FanRuns(s: Sequencer, cfg: LegacyConfig, st: Station) {
    st == F2 || cfg.f1 != RobotDo || s.f1On
  }

  /** A coated part under a running fan. */
  predicate Dries(s: Sequencer, cfg: LegacyConfig, pid: PartId) {
    && pid in s.parts && s.parts[pid].coats >= 1
    && ((F1 in s.occ && s.occ[F1] == pid && FanRuns(s, cfg, F1)) || (F2 in s.occ && s.occ[F2] == pid))
  }

  function Share(s: Sequencer, cfg: LegacyConfig, pid: PartId, dt: real): real {
    if dt > 0.0 && Dries(s, cfg, pid) then dt else 0.0
  }

  /** More on the counter of its coat, and dry once that flash is complete; else the same. */
  predicate Gains(p: PartState, q: PartState, x: real) {
    q == p.(flash1 := if p.coats <= 1 then p.flash1 + x else p.flash1,
            flash2 := if p.coats <= 1 then p.flash2 else p.flash2 + x, isWet := q.isWet)
  }

  predicate Dryness(p: PartState, q: PartState, cfg: LegacyConfig, x: real) {
    q.isWet == (p.isWet && (x <= 0.0 || q.ActiveFlash() < cfg.flash.flashSeconds))
  }

  /** One station's part of a banking. */
  lemma BankAtIs(s: Sequencer, cfg: LegacyConfig, st: Station, dt: real, pid: PartId)
    requires pid in s.parts && (st in s.occ ==> s.occ[st] in s.parts) && (st == F1 || st == F2) && dt > 0.0
    ensures
      var t := BankAt(s, cfg, st, dt);
      var x := if st in s.occ && s.occ[st] == pid && s.parts[pid].coats >= 1 && FanRuns(s, cfg, st) then dt else 0.0;
      && t == s.(parts := t.parts) && t.parts.Keys == s.parts.Keys
      && Gains(s.parts[pid], t.parts[pid], x) && Dryness(s.parts[pid], t.parts[pid], cfg, x)
  {
  }

  lemma BankIs(s: Sequencer, cfg: LegacyConfig, dt: real, pid: PartId)
    requires WellPlaced(s) && pid in s.parts
    ensures
      var t, x := BankAll(s, cfg, dt), Share(s, cfg, pid, dt);
      pid in t.parts && Gains(s.parts[pid], t.parts[pid], x) && Dryness(s.parts[pid], t.parts[pid], cfg, x)
  {
    if dt > 0.0 {
      BankAtIs(s, cfg, F1, dt, pid);
      BankAtIs(BankAt(s, cfg, F1, dt), cfg, F2, dt, pid);
    }
  }

  // ------------------------------------------------------------- the burst

  /** A wet part stands under a fan the robot can switch. */
  predicate PausesFan(s: Sequencer, cfg: LegacyConfig) {
    cfg.f1 == RobotDo && F1 in s.occ && s.occ[F1] in s.parts && s.parts[s.occ[F1]].isWet
  }

  function ForBurst(s: Sequencer, cfg: LegacyConfig): Sequencer {
    if PausesFan(s, cfg) then s.(f1On := false) else s
  }

  /** What the composite earns a part: the span up to the burst and, unless the spray
      failed, the burst itself, both with the fan as it stands for the burst. */
  function BurstShare(s: Sequencer, cfg: LegacyConfig, w: World, pid: PartId): real {
    var quiet := ForBurst(s, cfg);
    Share(quiet, cfg, pid, w.toBurst) + if w.robot == SprayFails then 0.0 else Share(quiet, cfg, pid, w.burst)
  }

  lemma GainsTwice(p: PartState, q: PartState, r: PartState, x: real, y: real)
    requires Gains(p, q, x) && Gains(q, r, y)
    ensures Gains(p, r, x + y)
  {
  }

  lemma SameShare(s: Sequencer, t: Sequencer, cfg: LegacyConfig, pid: PartId, dt: real)
    requires t == s.(parts := t.parts) && t.parts.Keys == s.parts.Keys
    requires pid in s.parts ==> t.parts[pid].coats == s.parts[pid].coats
    ensures Share(t, cfg, pid, dt) == Share(s, cfg, pid, dt)
  {
  }

  lemma QuietPlaced(s: Sequencer, cfg: LegacyConfig)
    requires WellPlaced(s)
    ensures WellPlaced(ForBurst(s, cfg))
    ensures ForBurst(s, cfg) == if Pauses(s, cfg) then SetF1(s, cfg, false) else s
  {
  }

  lemma AbortedIs(s: Sequencer, cfg: LegacyConfig, w: World, pid: PartId)
    requires WellPlaced(s) && pid in s.parts
    ensures
      var t := AbortedBurst(s, cfg, w);
      && pid in t.parts && Gains(s.parts[pid], t.parts[pid], Share(ForBurst(s, cfg), cfg, pid, w.toBurst))
      && t.f1On == ForBurst(s, cfg).f1On
  {
    QuietPlaced(s, cfg);
    BankKeeps(ForBurst(s, cfg), cfg, w.toBurst);
    BankIs(ForBurst(s, cfg), cfg, w.toBurst, pid);
  }

  /** The fan is off for the burst exactly over a wet part, and on again behind it. */
  lemma BurstIs(s: Sequencer, cfg: LegacyConfig, w: World, pid: PartId)
    requires WellPlaced(s) && pid in s.parts && w.robot != SprayFails
    ensures
      var t := AfterBurst(s, cfg, w);
      && pid in t.parts && Gains(s.parts[pid], t.parts[pid], BurstShare(s, cfg, w, pid))
      && t.f1On == (s.f1On || PausesFan(s, cfg))
  {
    var quiet := ForBurst(s, cfg);
    var mid := BankAll(quiet, cfg, w.toBurst);
    QuietPlaced(s, cfg);
    BankKeeps(quiet, cfg, w.toBurst);
    BankKeeps(mid, cfg, w.burst);
    BankIs(quiet, cfg, w.toBurst, pid);
    MidPlaced(quiet, mid);
    BankIs(mid, cfg, w.burst, pid);
    SameShare(quiet, mid, cfg, pid, w.burst);
    GainsTwice(s.parts[pid], mid.parts[pid], BankAll(mid, cfg, w.burst).parts[pid],
               Share(quiet, cfg, pid, w.toBurst), Share(quiet, cfg, pid, w.burst));
  }

  lemma MidPlaced(s: Sequencer, t: Sequencer)
    requires WellPlaced(s) && t == s.(parts := t.parts) && t.parts.Keys == s.parts.Keys
    ensures WellPlaced(t)
  {
  }

  // -------------------------------------------------------------- one step

  /** Everybody on the line is one part, and whoever waits is not on it. */
  predicate Single(s: Sequencer) {
    Sound(s) && (s.phase != Halted ==> Apart(s) && Waiting(s))
  }

  /** The robot works in this step. */
  predicate Works(s: Sequencer, w: World) {
    s.phase == Robot && !w.feedFails && w.robot != SandFails && CoatOwed(s)
  }

  /** What one step earns a part. */
  function Earned(s: Sequencer, cfg: LegacyConfig, w: World, pid: PartId): real {
    var b := BankAll(s, cfg, w.dt);
    Share(s, cfg, pid, w.dt) + if Works(b, w) then BurstShare(b, cfg, w, pid) else 0.0
  }

  /** The counters before and after, by the coat the part had. */
  predicate Books(p: PartState, q: PartState, x: real) {
    && q.flash1 == p.flash1 + (if p.coats <= 1 then x else 0.0)
    && q.flash2 == p.flash2 + (if p.coats <= 1 then 0.0 else x)
  }

  lemma AtONothing(s: Sequencer, cfg: LegacyConfig, pid: PartId, dt: real)
    requires Apart(s) && O in s.occ && s.occ[O] == pid
    ensures Share(s, cfg, pid, dt) == 0.0
  {
  }

  lemma FailedBooks(b: Sequencer, cfg: LegacyConfig, w: World, pid: PartId)
    requires Sound(b) && b.phase == Robot && pid in b.parts && CoatOwed(b) && (w.robot == SprayFails || w.robot == RetractFails)
    ensures
      var t := StepRobot(b, cfg, w).0;
      pid in t.parts && Books(b.parts[pid], t.parts[pid], BurstShare(b, cfg, w, pid))
  {
    if w.robot == SprayFails {
      AbortedIs(b, cfg, w, pid);
    } else {
      BurstIs(b, cfg, w, pid);
    }
  }

  lemma DoneBooks(b: Sequencer, cfg: LegacyConfig, w: World, pid: PartId)
    requires Sound(b) && Apart(b) && b.phase == Robot && pid in b.parts && CoatOwed(b) && w.robot == WorkDone
    ensures
      var t := StepRobot(b, cfg, w).0;
      pid in t.parts && Books(b.parts[pid], t.parts[pid], BurstShare(b, cfg, w, pid))
  {
    BurstIs(b, cfg, w, pid);
    if pid == b.occ[O] {
      AtONothing(ForBurst(b, cfg), cfg, pid, w.toBurst);
      AtONothing(ForBurst(b, cfg), cfg, pid, w.burst);
    }
  }

  lemma RobotBooks(b: Sequencer, cfg: LegacyConfig, w: World, pid: PartId)
    requires Sound(b) && Apart(b) && b.phase == Robot && pid in b.parts
    ensures
      var t := StepRobot(b, cfg, w).0;
      pid in t.parts
      && Books(b.parts[pid], t.parts[pid], if CoatOwed(b) && w.robot != SandFails then BurstShare(b, cfg, w, pid) else 0.0)
  {
    if CoatOwed(b) && w.robot == WorkDone {
      DoneBooks(b, cfg, w, pid);
    } else if CoatOwed(b) && w.robot != SandFails {
      FailedBooks(b, cfg, w, pid);
    }
  }

  /** A part whose record a step leaves alone after banking. */
  lemma OtherBooks(b: Sequencer, cfg: LegacyConfig, w: World, pid: PartId)
    requires Sound(b) && b.phase != Robot && pid in b.parts && Mints(b, w)
    ensures pid in Dispatched(b, cfg, w).0.parts && Dispatched(b, cfg, w).0.parts[pid] == b.parts[pid]
  {
    if b.phase == Transition {
      ShiftKeeps(b, w);
    }
  }

  lemma BankedSingle(s: Sequencer, cfg: LegacyConfig, dt: real)
    requires Single(s)
    ensures Single(BankAll(s, cfg, dt))
  {
    var t := BankAll(s, cfg, dt);
    BankKeeps(s, cfg, dt);
    BankedSound(s, t);
    BankGrows(s, cfg, dt);
  }

  /** One step earns a part exactly its fan-on share of the time since the last banking
      and, if the robot worked, of the composite. */
  lemma StepBooks(s: Sequencer, cfg: LegacyConfig, w: World, pid: PartId)
    requires Single(s) && Mints(s, w) && pid in s.parts
    ensures
      var t := Stepped(s, cfg, w).0;
      pid in t.parts && Books(s.parts[pid], t.parts[pid], Earned(s, cfg, w, pid))
  {
    var b := BankAll(s, cfg, w.dt);
    BankKeeps(s, cfg, w.dt);
    BankedSingle(s, cfg, w.dt);
    BankIs(s, cfg, w.dt, pid);
    if b.phase == Robot && !w.feedFails {
      RobotBooks(b, cfg, w, pid);
    } else if b.phase != Robot {
      OtherBooks(b, cfg, w, pid);
    }
  }

  // --------------------------------------------------------- whole runs

  lemma IdleSingle(s: Sequencer, cfg: LegacyConfig, w: World)
    requires Single(s) && Mints(s, w) && s.phase == Idle
    ensures var t := StepIdle(s, cfg, w).0; t.phase != Halted ==> Apart(t) && Waiting(t)
  {
    IdleCases(s, cfg, w);
    AdmittedApart(s, w, LEAD);
    AdmittedKeeps(s, w, LEAD);
    var (u, pid) := Admitted(s, w, LEAD);
    FirstEntry(s, u, pid, cfg);
  }

  lemma StageSingle(s: Sequencer, cfg: LegacyConfig, w: World)
    requires Single(s) && Mints(s, w) && s.phase == Stage
    ensures var t := StepStage(s, cfg, w).0; t.phase != Halted ==> Apart(t) && Waiting(t)
  {
    var role := if s.beat == P1 then TRAIL else LEAD;
    StageCases(s, cfg, w);
    AdmittedApart(s, w, role);
    var (u, pid) := Admitted(s, w, role);
    StagedEntry(u, pid);
  }

  lemma RobotSingle(s: Sequencer, cfg: LegacyConfig, w: World)
    requires Single(s) && s.phase == Robot
    ensures var t := StepRobot(s, cfg, w).0; t.phase != Halted ==> Apart(t) && Waiting(t)
  {
    if CoatOwed(s) {
      var t := StepRobot(s, cfg, w).0;
      if w.robot == WorkDone {
        BurstGrows(s, cfg, w);
        BurstKeeps(s, cfg, w);
        CoatedRecords(s, t, s.parts[s.occ[O]].(coats := Due(s.beat), isWet := true));
      }
    } else {
      PassedBy(s, cfg, w);
      FlashOnly(s);
    }
  }

  lemma FlashSingle(s: Sequencer, cfg: LegacyConfig, w: World)
    requires Single(s) && s.phase == Flash
    ensures var t := StepFlash(s, cfg, w).0; t.phase != Halted ==> Apart(t) && Waiting(t)
  {
    FlashTouches(s, cfg, w);
    SameParts(s, StepFlash(s, cfg, w).0);
  }

  lemma TransitionSingle(s: Sequencer, cfg: LegacyConfig, w: World)
    requires Single(s) && s.phase == Transition
    ensures var t := StepTransition(s, cfg, w).0; t.phase != Halted ==> Apart(t) && Waiting(t)
  {
    var (t, failed) := Shifted(s, w);
    if failed.None? {
      ShiftApart(s, w);
      NewBeatRecords(t, cfg);
    }
  }

  lemma DispatchSingle(s: Sequencer, cfg: LegacyConfig, w: World)
    requires Single(s) && Mints(s, w)
    ensures Single(Dispatched(s, cfg, w).0)
  {
    DispatchKeeps(s, cfg, w);
    if s.phase != Halted && !w.feedFails {
      match s.phase
      case Idle => IdleSingle(s, cfg, w);
      case Robot => RobotSingle(s, cfg, w);
      case Flash => FlashSingle(s, cfg, w);
      case Stage => StageSingle(s, cfg, w);
      case Transition => TransitionSingle(s, cfg, w);
    }
  }

  lemma ReactedSingle(s: Sequencer, cfg: LegacyConfig, h: Happening)
    requires Single(s) && Plausible(s, h)
    ensures Single(Reacted(s, cfg, h).0)
  {
    ReactedKeeps(s, cfg, h);
    match h
    case Work(w) =>
      BankKeeps(s, cfg, w.dt);
      BankedSingle(s, cfg, w.dt);
      DispatchSingle(BankAll(s, cfg, w.dt), cfg, w);
    case Declare(pid, part) => if s.phase != Halted { DeclareApart(s, pid, part); }
    case Halt =>
    case Wait(dt) => BankedSingle(s, cfg, dt);
  }

  /** What a happening earns a part. */
  function Credit(s: Sequencer, cfg: LegacyConfig, h: Happening, pid: PartId): real {
    match h
    case Work(w) => Earned(s, cfg, w, pid)
    case Wait(dt) => Share(s, cfg, pid, dt)
    case Declare(id, part) => 0.0
    case Halt => 0.0
  }

  lemma HappeningBooks(s: Sequencer, cfg: LegacyConfig, h: Happening, pid: PartId)
    requires Single(s) && Plausible(s, h) && pid in s.parts
    ensures
      var t := Reacted(s, cfg, h).0;
      pid in t.parts && Books(s.parts[pid], t.parts[pid], Credit(s, cfg, h, pid))
  {
    match h
    case Work(w) => StepBooks(s, cfg, w, pid);
    case Wait(dt) => BankIs(s, cfg, dt, pid);
    case Declare(id, part) =>
    case Halt =>
  }

  /** Seconds earned on one coat over the happenings from i up to k. */
  function Total(cfg: LegacyConfig, states: seq<Sequencer>, happenings: seq<Happening>, i: nat, k: nat, pid: PartId, second: bool): real
    requires i <= k <= |happenings| < |states|
    decreases k - i
  {
    if i == k then 0.0
    else
      Total(cfg, states, happenings, i, k - 1, pid, second) + CoatCredit(states[k - 1], cfg, happenings[k - 1], pid, second)
  }

  lemma {:induction false} RunSingle(
    cfg: LegacyConfig, states: seq<Sequencer>, happenings: seq<Happening>, log: seq<Effect>, k: nat)
    requires k < |states| && IsLegacyRun(cfg, states, happenings, log)
    requires AtRest(states[0]) && Apart(states[0]) && Waiting(states[0])
    ensures Single(states[k])
  {
    if k > 0 {
      RunSingle(cfg, states, happenings, log, k - 1);
      ReactedSingle(states[k - 1], cfg, happenings[k - 1]);
    }
  }

  /** The last happening's credit goes on the counter of the coat the part has. */
  function CoatCredit(s: Sequencer, cfg: LegacyConfig, h: Happening, pid: PartId, second: bool): real {
    if pid in s.parts && (s.parts[pid].coats >= 2) == second then Credit(s, cfg, h, pid) else 0.0
  }

  /** Happening j is booked: its credit on the right counter, and nothing else. */
  predicate IsBooked(cfg: LegacyConfig, states: seq<Sequencer>, happenings: seq<Happening>, j: nat, pid: PartId)
    requires j < |happenings| && j + 1 < |states|
  {
    var s, t := states[j], states[j + 1];
    pid in s.parts ==>
      && pid in t.parts
      && t.parts[pid].flash1 == s.parts[pid].flash1 + CoatCredit(s, cfg, happenings[j], pid, false)
      && t.parts[pid].flash2 == s.parts[pid].flash2 + CoatCredit(s, cfg, happenings[j], pid, true)
  }

  lemma BooksAreKept(
    cfg: LegacyConfig, states: seq<Sequencer>, happenings: seq<Happening>, log: seq<Effect>, j: nat, pid: PartId)
    requires j < |happenings| && IsLegacyRun(cfg, states, happenings, log)
    requires AtRest(states[0]) && Apart(states[0]) && Waiting(states[0])
    ensures IsBooked(cfg, states, happenings, j, pid)
  {
    if pid in states[j].parts {
      RunSingle(cfg, states, happenings, log, j);
      HappeningBooks(states[j], cfg, happenings[j], pid);
    }
  }

  lemma {:induction false} BooksAddUp(
    cfg: LegacyConfig, states: seq<Sequencer>, happenings: seq<Happening>, i: nat, k: nat, pid: PartId)
    requires i <= k <= |happenings| && |states| == |happenings| + 1 && pid in states[i].parts
    requires forall j :: i <= j < k ==> IsBooked(cfg, states, happenings, j, pid)
    ensures pid in states[k].parts
    ensures states[k].parts[pid].flash1 == states[i].parts[pid].flash1 + Total(cfg, states, happenings, i, k, pid, false)
    ensures states[k].parts[pid].flash2 == states[i].parts[pid].flash2 + Total(cfg, states, happenings, i, k, pid, true)
    decreases k - i
  {
    if i < k {
      BooksAddUp(cfg, states, happenings, i, k - 1, pid);
      assert IsBooked(cfg, states, happenings, k - 1, pid);
    }
  }

  /** The exact ledger of the legacy line: from any point at which a part is on record,
      each of its counters has grown by exactly the fan-on seconds of that coat. */
  lemma LegacyExactLedger(
    cfg: LegacyConfig, states: seq<Sequencer>, happenings: seq<Happening>, log: seq<Effect>, i: nat, k: nat, pid: PartId)
    requires i <= k < |states| && IsLegacyRun(cfg, states, happenings, log)
    requires AtRest(states[0]) && Apart(states[0]) && Waiting(states[0]) && pid in states[i].parts
    ensures pid in states[k].parts
    ensures states[k].parts[pid].flash1 == states[i].parts[pid].flash1 + Total(cfg, states, happenings, i, k, pid, false)
    ensures states[k].parts[pid].flash2 == states[i].parts[pid].flash2 + Total(cfg, states, happenings, i, k, pid, true)
  {
    forall j | i <= j < k ensures IsBooked(cfg, states, happenings, j, pid) {
      BooksAreKept(cfg, states, happenings, log, j, pid);
    }
    BooksAddUp(cfg, states, happenings, i, k, pid);
  }
}

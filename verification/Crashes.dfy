/** Runs with crashes: the controller may die between any two actions and come back
    from whatever its store last wrote. */
module Crashes {
  import opened Model
  import opened Schedule
  import opened Timers
  import opened Guards
  import opened Machine
  import opened Moves
  import opened Pattern
  import opened Safety
  import opened Recovery
  import opened Persistence
  import StoreRules
  import Runs
  import Ledger

  /** The running controller, its store, and whether a spray has been asked for since
      the last save. */
  datatype Plant = Plant(live: LineState, store: Store, unsaved: bool)

  datatype Act =
    | Live(event: Runs.Event)
    | Snap(now: real)
    | Crash

  const FreshLine :=
    LineState(map[], map[], [], [], [], P1, 0, RobotWork, false, false, Closed, false, None, None)

  /** A batch is declared up front, so the declared count never changes. */
  function After(cfg: Config, declared: int, p: Plant, a: Act): Plant {
    match a
    case Live(e) =>
      var r := Runs.React(cfg, p.live, e);
      p.(live := r.state, unsaved := p.unsaved || Sprays(r.intents))
    case Snap(now) => p.(store := MaybeSaved(p.store, p.live, declared, now), unsaved := false)
    case Crash => Plant(Restored(p.store.file), Store(p.store.file, p.store.minInterval, 0.0, None), false)
  }

  predicate Sprays(intents: seq<Intent>) {
    exists intent :: intent in intents && intent.SprayPart?
  }

  /** What a new process starts with. */
  function Restored(file: File): LineState {
    if Read(file).Some? then AsRestored(Read(file).value.0) else FreshLine
  }

  /** What a restart shows of the line it found. */
  predicate ShowsRestart(s: LineState, t: LineState) {
    && LayoutOf(t) == LayoutOf(s) && t.pending == [] && t.inFlight == []
    && t.beat == s.beat && t.pairIndex == s.pairIndex
    && (t.phase == Faulted <==> s.parts != map[] || s.occupancy != map[] || s.inQueue != [])
  }

  lemma RestartShows(s: LineState)
    ensures ShowsRestart(s, AsRestored(s))
  {
    StoreRules.RestartAnswers(s);
  }

  /** A crash costs everything but the file. What the file shows comes back latched if
      anything is on the line; a file that cannot be read, or none, is a clean start. */
  lemma CrashAnswers(cfg: Config, declared: int, p: Plant)
    ensures
      var q := After(cfg, declared, p, Crash);
      && q.store.file == p.store.file && q.store.lastStructural == None && !q.unsaved
      && (Read(p.store.file).None? ==>
            q.live.parts == map[] && q.live.occupancy == map[] && q.live.inQueue == [] && q.live.phase == RobotWork
            && q.live.beat == P1 && q.live.fault == None)
      && (Read(p.store.file).Some? ==> ShowsRestart(Read(p.store.file).value.0, q.live))
  {
    if Read(p.store.file).Some? {
      RestartShows(Read(p.store.file).value.0);
    }
  }

  function Intents(cfg: Config, p: Plant, a: Act): seq<Intent> {
    if a.Live? then Runs.React(cfg, p.live, a.event).intents else []
  }

  // ------------------------------------------------------------- invariant

  /** On the schedule of the batch, or with nothing left on the line. */
  predicate Fits(all: seq<PartId>, cfg: Config, s: LineState) {
    s.pairIndex >= 0 && (OnSchedule(all, cfg, s) || OnSchedule([], cfg, s))
  }

  predicate PlantFits(all: seq<PartId>, cfg: Config, p: Plant) {
    && Fits(all, cfg, p.live)
    && (Read(p.store.file).Some? ==> Fits(all, cfg, Read(p.store.file).value.0))
  }

  lemma ErasedKeeps(all: seq<PartId>, cfg: Config, s: LineState)
    requires OnSchedule(all, cfg, s)
    ensures OnSchedule(all, cfg, Erased(s))
  {
    Rephased(all, cfg, s, Erased(s));
  }

  lemma EmptyIsOnSchedule(cfg: Config, s: LineState)
    requires NothingOnLine(s) && s.pairIndex >= 0 && s.inFlight == []
    requires s.phase == RobotWork && s.fault.None? && s.faultPhase.None?
    ensures OnSchedule([], cfg, s)
  {
  }

  /** Restoring puts the line back where its schedule left it, latched. */
  lemma RestoredKeeps(all: seq<PartId>, cfg: Config, s: LineState)
    requires OnSchedule(all, cfg, s) && !NothingOnLine(s)
    ensures OnSchedule(all, cfg, AsRestored(s)) && AsRestored(s).phase == Faulted
    ensures LayoutOf(AsRestored(s)) == LayoutOf(s)
  {
    Rephased(all, cfg, s, AsRestored(s));
  }

  lemma RestoredFits(all: seq<PartId>, cfg: Config, s: LineState)
    requires Fits(all, cfg, s)
    ensures Fits(all, cfg, AsRestored(s))
  {
    if NothingOnLine(s) {
      EmptyIsOnSchedule(cfg, AsRestored(s));
    } else if OnSchedule(all, cfg, s) {
      RestoredKeeps(all, cfg, s);
    } else {
      RestoredKeeps([], cfg, s);
    }
  }

  lemma WrittenReads(all: seq<PartId>, cfg: Config, s: LineState, declared: int)
    requires OnSchedule(all, cfg, s)
    ensures Deserialize(Serialize(s, declared)) == Some((Erased(s), declared))
    ensures OnSchedule(all, cfg, Erased(s))
  {
    KeyedParts(all, cfg, s);
    RoundTrip(s, declared);
    ErasedKeeps(all, cfg, s);
  }

  lemma WrittenFits(all: seq<PartId>, cfg: Config, s: LineState, declared: int)
    requires Fits(all, cfg, s)
    ensures Deserialize(Serialize(s, declared)).Some?
    ensures Fits(all, cfg, Deserialize(Serialize(s, declared)).value.0)
  {
    if OnSchedule(all, cfg, s) {
      WrittenReads(all, cfg, s, declared);
    } else {
      WrittenReads([], cfg, s, declared);
    }
  }

  lemma PairGrows(cfg: Config, s: LineState, e: Runs.Event)
    ensures Runs.React(cfg, s, e).state.pairIndex >= s.pairIndex
  {
    match e
    case Tick(f1, f2, inputs, id) => StepPairGrows(cfg, Runs.Sensed(s, f1, f2), inputs, id);
    case Paused(f1, f2, dt) =>
    case Acknowledge(sensors, confirmed, beat, id) => ResumeKeepsPair(s, sensors, confirmed, beat, id);
  }

  lemma ResumeKeepsPair(
    s: LineState, sensors: Sensors, confirmed: Option<map<Station, PartId>>, beat: Option<Beat>, id: nat)
    ensures Resume(s, sensors, confirmed, beat, id).state.pairIndex == s.pairIndex
  {
    if s.phase == Faulted {
      ReentryKeepsPair(s, if confirmed.Some? then confirmed.value else s.occupancy, if beat.Some? then beat.value else s.beat);
    }
  }

  lemma ReentryKeepsPair(s: LineState, occupancy: map<Station, PartId>, beat: Beat)
    ensures Reentry(s, occupancy, beat).0.pairIndex == s.pairIndex
  {
    assert Shifted(s.(fault := None), s.inFlight).pairIndex == s.pairIndex;
  }

  lemma StepPairGrows(cfg: Config, s: LineState, inputs: Inputs, id: nat)
    ensures Step(s, inputs, cfg, id).state.pairIndex >= s.pairIndex
  {
    var o := Observed(s, inputs, cfg);
    if inputs.fault.None? && o.phase != Faulted && (o.phase == Moving || OccupancyMismatch(o, inputs.sensors).None?)
       && o.pending == [] {
      DispatchPairGrows(o, inputs.sensors, cfg, id);
    }
  }

  lemma DispatchPairGrows(s: LineState, sensors: Sensors, cfg: Config, id: nat)
    requires s.phase != Faulted
    ensures Dispatch(s, sensors, cfg, id).state.pairIndex >= s.pairIndex
  {
    match s.phase
    case RobotWork => assert RobotWorkPhase(s, sensors, cfg, id).state.pairIndex == s.pairIndex;
    case Moving => assert MovingPhase(s, sensors, cfg, id).state.pairIndex == s.pairIndex;
    case AwaitGuards =>
    case ShutterOpen =>
    case ShutterClose =>
    case SetFans =>
  }

  lemma LiveFits(all: seq<PartId>, cfg: Config, s: LineState, e: Runs.Event)
    requires Fits(all, cfg, s) && Runs.Admissible(s, e)
    ensures Fits(all, cfg, Runs.React(cfg, s, e).state)
  {
    PairGrows(cfg, s, e);
    if OnSchedule(all, cfg, s) {
      Runs.ReactKeeps(all, cfg, s, e);
    } else {
      Runs.ReactKeeps([], cfg, s, e);
    }
  }

  predicate Admitted(p: Plant, a: Act) {
    a.Live? ==> Runs.Admissible(p.live, a.event)
  }

  lemma FreshFits(all: seq<PartId>, cfg: Config)
    ensures Fits(all, cfg, FreshLine)
  {
    EmptyIsOnSchedule(cfg, FreshLine);
  }

  /** Live events, saves and crashes all keep the line, and the file, on schedule. */
  lemma ActKeeps(all: seq<PartId>, cfg: Config, declared: int, p: Plant, a: Act)
    requires PlantFits(all, cfg, p) && Admitted(p, a)
    ensures PlantFits(all, cfg, After(cfg, declared, p, a))
  {
    match a
    case Live(e) => LiveFits(all, cfg, p.live, e);
    case Snap(now) => WrittenFits(all, cfg, p.live, declared);
    case Crash =>
      FreshFits(all, cfg);
      if Read(p.store.file).Some? {
        RestoredFits(all, cfg, Read(p.store.file).value.0);
      }
  }

  // ------------------------------------------------------------ whole runs

  predicate IsCrashRun(cfg: Config, declared: int, plants: seq<Plant>, acts: seq<Act>) {
    && |plants| == |acts| + 1
    && forall k {:trigger acts[k]} :: 0 <= k < |acts| ==>
         Admitted(plants[k], acts[k]) && plants[k + 1] == After(cfg, declared, plants[k], acts[k])
  }

  /** A declared batch, with nothing saved yet. */
  predicate FirstStart(all: seq<PartId>, p: Plant) {
    Declared(all, p.live) && !Read(p.store.file).Some? && Remembers(p.store) && !p.unsaved
  }

  lemma {:induction false} CrashRunFits(
    all: seq<PartId>, cfg: Config, declared: int, plants: seq<Plant>, acts: seq<Act>, k: nat)
    requires k < |plants| && IsCrashRun(cfg, declared, plants, acts) && FirstStart(all, plants[0])
    ensures PlantFits(all, cfg, plants[k])
  {
    if k == 0 {
      DeclaredOnSchedule(all, cfg, plants[0].live);
    } else {
      CrashRunFits(all, cfg, declared, plants, acts, k - 1);
      ActKeeps(all, cfg, declared, plants[k - 1], acts[k - 1]);
    }
  }

  lemma FittingSpray(all: seq<PartId>, cfg: Config, s: LineState, e: Runs.Event, intent: Intent)
    requires Fits(all, cfg, s) && Runs.Admissible(s, e)
    requires intent in Runs.React(cfg, s, e).intents && intent.SprayPart?
    ensures Runs.MaySpray(Runs.Banked(cfg, s, e), cfg, intent.part, intent.coat)
  {
    if OnSchedule(all, cfg, s) {
      Runs.SprayIsAllowed(all, cfg, s, e, intent);
    } else {
      Runs.SprayIsAllowed([], cfg, s, e, intent);
    }
  }

  lemma FittingDeparture(all: seq<PartId>, cfg: Config, s: LineState, e: Runs.Event, pid: PartId)
    requires Fits(all, cfg, s) && Runs.Admissible(s, e)
    requires pid in Runs.Left(cfg, s, e)
    ensures pid in Runs.Banked(cfg, s, e) && Runs.Finished(Runs.Banked(cfg, s, e)[pid], cfg)
  {
    if OnSchedule(all, cfg, s) {
      Runs.DepartureIsFinished(all, cfg, s, e, pid);
    } else {
      Runs.DepartureIsFinished([], cfg, s, e, pid);
    }
  }

  /** Crash transparency for the flash rule: with crashes and restores at arbitrary
      points, every spray still meets its guard and every part leaving is finished,
      by timers that were read back from disk. */
  lemma CrashesNeverUnderFlash(
    all: seq<PartId>, cfg: Config, declared: int, plants: seq<Plant>, acts: seq<Act>, k: nat)
    requires k < |acts| && IsCrashRun(cfg, declared, plants, acts) && FirstStart(all, plants[0])
    requires acts[k].Live?
    ensures forall intent :: intent in Intents(cfg, plants[k], acts[k]) && intent.SprayPart? ==>
      Runs.MaySpray(Runs.Banked(cfg, plants[k].live, acts[k].event), cfg, intent.part, intent.coat)
    ensures forall pid :: pid in Runs.Left(cfg, plants[k].live, acts[k].event) ==>
      && pid in Runs.Banked(cfg, plants[k].live, acts[k].event)
      && Runs.Finished(Runs.Banked(cfg, plants[k].live, acts[k].event)[pid], cfg)
  {
    CrashRunFits(all, cfg, declared, plants, acts, k);
    var s, e := plants[k].live, acts[k].event;
    forall intent | intent in Intents(cfg, plants[k], acts[k]) && intent.SprayPart?
      ensures Runs.MaySpray(Runs.Banked(cfg, s, e), cfg, intent.part, intent.coat)
    {
      FittingSpray(all, cfg, s, e, intent);
    }
    forall pid | pid in Runs.Left(cfg, s, e)
      ensures pid in Runs.Banked(cfg, s, e) && Runs.Finished(Runs.Banked(cfg, s, e)[pid], cfg)
    {
      FittingDeparture(all, cfg, s, e, pid);
    }
  }

  // ------------------------------------------------- no part coated twice

  /** No record of this part, live or read back while no spray is unsaved, is below `coat`. */
  predicate Floor(p: Plant, pid: PartId, coat: nat) {
    && (pid in p.live.parts ==> p.live.parts[pid].coats >= coat)
    && (!p.unsaved && Read(p.store.file).Some? && pid in Read(p.store.file).value.0.parts ==>
          Read(p.store.file).value.0.parts[pid].coats >= coat)
  }

  predicate TidyPlant(cfg: Config, p: Plant) {
    && Ledger.AllTidy(p.live, cfg)
    && Remembers(p.store)
    && (Read(p.store.file).Some? ==> Ledger.AllTidy(Read(p.store.file).value.0, cfg))
  }

  /** No crash falls between a tick that asks for a spray and the save behind it. Ticks
      that ask for none may be lost. */
  predicate BetweenTurns(p: Plant, a: Act) {
    && (a.Crash? ==> !p.unsaved)
    && (a.Live? ==> Ledger.Forward(a.event))
  }

  lemma SavedTidy(cfg: Config, store: Store, s: LineState, declared: int, now: real)
    requires Ledger.AllTidy(s, cfg) && Remembers(store)
    requires Read(store.file).Some? ==> Ledger.AllTidy(Read(store.file).value.0, cfg)
    ensures
      var after := MaybeSaved(store, s, declared, now);
      Remembers(after) && Read(after.file).Some? && Ledger.AllTidy(Read(after.file).value.0, cfg)
  {
    MaybeSavedAgrees(store, s, declared, now);
    RoundTrip(s, declared);
  }

  lemma ActKeepsTidy(cfg: Config, declared: int, p: Plant, a: Act)
    requires TidyPlant(cfg, p) && BetweenTurns(p, a) && cfg.flashSeconds > 0.0
    ensures TidyPlant(cfg, After(cfg, declared, p, a))
  {
    match a
    case Live(e) => Ledger.EventKeepsTidy(cfg, p.live, e);
    case Snap(now) => SavedTidy(cfg, p.store, p.live, declared, now);
    case Crash =>
  }

  lemma LiveFloor(cfg: Config, s: LineState, e: Runs.Event, pid: PartId, coat: nat)
    requires Ledger.AllTidy(s, cfg) && Ledger.Forward(e) && cfg.flashSeconds > 0.0
    requires pid in s.parts ==> s.parts[pid].coats >= coat
    ensures
      var t := Runs.React(cfg, s, e).state;
      pid in t.parts ==> t.parts[pid].coats >= coat
  {
    if pid in Runs.React(cfg, s, e).state.parts {
      Ledger.EventBooks(cfg, s, e, pid);
    }
  }

  lemma SnapFloor(store: Store, s: LineState, declared: int, now: real, pid: PartId, coat: nat)
    requires Remembers(store) && (pid in s.parts ==> s.parts[pid].coats >= coat)
    ensures
      var read := Read(MaybeSaved(store, s, declared, now).file);
      read.Some? && pid in read.value.0.parts ==> read.value.0.parts[pid].coats >= coat
  {
    MaybeSavedAgrees(store, s, declared, now);
    var read := Read(MaybeSaved(store, s, declared, now).file).value;
    assert Marks(read.0) == Marks(s);
    assert pid in read.0.parts ==> pid in Marks(read.0) && Marks(s)[pid] == (read.0.parts[pid].coats, read.0.parts[pid].isWet);
  }

  lemma ActKeepsFloor(cfg: Config, declared: int, p: Plant, a: Act, pid: PartId, coat: nat)
    requires TidyPlant(cfg, p) && BetweenTurns(p, a) && cfg.flashSeconds > 0.0
    requires Floor(p, pid, coat)
    ensures Floor(After(cfg, declared, p, a), pid, coat)
  {
    match a
    case Live(e) => LiveFloor(cfg, p.live, e, pid, coat);
    case Snap(now) => SnapFloor(p.store, p.live, declared, now, pid, coat);
    case Crash =>
  }

  predicate IsTurnRun(cfg: Config, declared: int, plants: seq<Plant>, acts: seq<Act>) {
    && |plants| == |acts| + 1
    && forall k {:trigger acts[k]} :: 0 <= k < |acts| ==>
         BetweenTurns(plants[k], acts[k]) && plants[k + 1] == After(cfg, declared, plants[k], acts[k])
  }

  lemma {:induction false} TurnRunTidy(cfg: Config, declared: int, plants: seq<Plant>, acts: seq<Act>, k: nat)
    requires k < |plants| && IsTurnRun(cfg, declared, plants, acts)
    requires TidyPlant(cfg, plants[0]) && cfg.flashSeconds > 0.0
    ensures TidyPlant(cfg, plants[k])
  {
    if k > 0 {
      TurnRunTidy(cfg, declared, plants, acts, k - 1);
      ActKeepsTidy(cfg, declared, plants[k - 1], acts[k - 1]);
    }
  }

  lemma {:induction false} FloorStays(
    cfg: Config, declared: int, plants: seq<Plant>, acts: seq<Act>, i: nat, k: nat, pid: PartId, coat: nat)
    requires i <= k < |plants| && IsTurnRun(cfg, declared, plants, acts)
    requires TidyPlant(cfg, plants[0]) && cfg.flashSeconds > 0.0
    requires Floor(plants[i], pid, coat)
    ensures Floor(plants[k], pid, coat)
    decreases k - i
  {
    if i < k {
      FloorStays(cfg, declared, plants, acts, i, k - 1, pid, coat);
      TurnRunTidy(cfg, declared, plants, acts, k - 1);
      ActKeepsFloor(cfg, declared, plants[k - 1], acts[k - 1], pid, coat);
    }
  }

  lemma AskedIsRecorded(cfg: Config, declared: int, p: Plant, a: Act, pid: PartId, coat: nat)
    requires TidyPlant(cfg, p) && BetweenTurns(p, a) && cfg.flashSeconds > 0.0
    requires Ledger.Asked(Intents(cfg, p, a), pid, coat)
    ensures pid in p.live.parts && p.live.parts[pid].coats < coat
    ensures Floor(After(cfg, declared, p, a), pid, coat)
  {
    Ledger.SprayRecorded(cfg, p.live, a.event, pid, coat);
    assert Sprays(Intents(cfg, p, a));
  }

  /** The intents each act of the run emitted. */
  predicate IsLogged(cfg: Config, plants: seq<Plant>, acts: seq<Act>, log: seq<seq<Intent>>) {
    && |log| == |acts| < |plants|
    && forall k {:trigger acts[k]} :: 0 <= k < |acts| ==> log[k] == Intents(cfg, plants[k], acts[k])
  }

  lemma RunAsked(
    cfg: Config, declared: int, plants: seq<Plant>, acts: seq<Act>, log: seq<seq<Intent>>, k: nat, pid: PartId, coat: nat)
    requires k < |acts| && IsTurnRun(cfg, declared, plants, acts)
    requires TidyPlant(cfg, plants[0]) && cfg.flashSeconds > 0.0
    requires IsLogged(cfg, plants, acts, log) && Ledger.Asked(log[k], pid, coat)
    ensures pid in plants[k].live.parts && plants[k].live.parts[pid].coats < coat
    ensures Floor(plants[k + 1], pid, coat)
  {
    TurnRunTidy(cfg, declared, plants, acts, k);
    AskedIsRecorded(cfg, declared, plants[k], acts[k], pid, coat);
  }

  /** A restart re-coats no part: between any two sprays of one part the coat number
      rises, whatever crashes, restores and recoveries lie between, as long as no
      crash separates a spraying tick from its save. */
  lemma CrashesReCoatNothing(
    cfg: Config, declared: int, plants: seq<Plant>, acts: seq<Act>, log: seq<seq<Intent>>,
    i: nat, k: nat, pid: PartId, c: nat, d: nat)
    requires i < k < |acts| && IsTurnRun(cfg, declared, plants, acts)
    requires TidyPlant(cfg, plants[0]) && cfg.flashSeconds > 0.0
    requires IsLogged(cfg, plants, acts, log)
    requires Ledger.Asked(log[i], pid, c) && Ledger.Asked(log[k], pid, d)
    ensures c < d
  {
    RunAsked(cfg, declared, plants, acts, log, i, pid, c);
    FloorStays(cfg, declared, plants, acts, i + 1, k, pid, c);
    RunAsked(cfg, declared, plants, acts, log, k, pid, d);
  }

  // ---------------------------------------------------------- stored timers

  /** The file never credits a part with more flash than the live record does. */
  predicate Behind(p: Plant) {
    Read(p.store.file).Some? ==>
      forall pid :: pid in p.live.parts && pid in Read(p.store.file).value.0.parts ==>
        && Read(p.store.file).value.0.parts[pid].flash1 <= p.live.parts[pid].flash1
        && Read(p.store.file).value.0.parts[pid].flash2 <= p.live.parts[pid].flash2
  }

  lemma LiveBehind(cfg: Config, p: Plant, e: Runs.Event)
    requires Ledger.AllTidy(p.live, cfg) && Ledger.Forward(e) && cfg.flashSeconds > 0.0 && Behind(p)
    ensures Behind(p.(live := Runs.React(cfg, p.live, e).state))
  {
    var t := Runs.React(cfg, p.live, e).state;
    forall pid | pid in t.parts
      ensures pid in p.live.parts
      ensures p.live.parts[pid].flash1 <= t.parts[pid].flash1 && p.live.parts[pid].flash2 <= t.parts[pid].flash2
    {
      Ledger.EventBooks(cfg, p.live, e, pid);
    }
  }

  lemma SnapBehind(cfg: Config, declared: int, p: Plant, now: real)
    requires KeyedById(p.live.parts) && Behind(p)
    ensures Behind(p.(store := MaybeSaved(p.store, p.live, declared, now)))
  {
    RoundTrip(p.live, declared);
  }

  lemma CrashBehind(p: Plant)
    ensures Behind(p.(live := Restored(p.store.file)))
  {
  }

  lemma ActKeepsBehind(cfg: Config, declared: int, p: Plant, a: Act)
    requires TidyPlant(cfg, p) && cfg.flashSeconds > 0.0 && Behind(p)
    requires a.Live? ==> Ledger.Forward(a.event)
    ensures Behind(After(cfg, declared, p, a))
  {
    match a
    case Live(e) => LiveBehind(cfg, p, e);
    case Snap(now) => SnapBehind(cfg, declared, p, now);
    case Crash => CrashBehind(p);
  }

  /** After each save the file agrees with the live state on all but the timers,
      and at no point of a run does a stored timer exceed the live one. */
  lemma {:induction false} FileIsBehind(cfg: Config, declared: int, plants: seq<Plant>, acts: seq<Act>, k: nat)
    requires k < |plants| && IsTurnRun(cfg, declared, plants, acts)
    requires TidyPlant(cfg, plants[0]) && Behind(plants[0]) && cfg.flashSeconds > 0.0
    ensures Behind(plants[k])
    ensures k > 0 && acts[k - 1].Snap? ==>
      && Read(plants[k].store.file).Some?
      && KeyOf(Read(plants[k].store.file).value.0, Read(plants[k].store.file).value.1) == KeyOf(plants[k].live, declared)
  {
    if k > 0 {
      FileIsBehind(cfg, declared, plants, acts, k - 1);
      TurnRunTidy(cfg, declared, plants, acts, k - 1);
      ActKeepsBehind(cfg, declared, plants[k - 1], acts[k - 1]);
      if acts[k - 1].Snap? {
        MaybeSavedAgrees(plants[k - 1].store, plants[k - 1].live, declared, acts[k - 1].now);
      }
    }
  }

  lemma FirstStartTidy(all: seq<PartId>, cfg: Config, p: Plant)
    requires FirstStart(all, p) && cfg.flashSeconds > 0.0
    ensures TidyPlant(cfg, p) && Behind(p)
  {
  }

  // ------------------------------------------------ a crash before the save

  lemma SprayNeedsWork(cfg: Config, s: LineState, inputs: Inputs, id: nat, pid: PartId, coat: nat)
    requires Ledger.Asked(Step(s, inputs, cfg, id).intents, pid, coat)
    ensures s.phase == RobotWork && inputs.fault.None?
    ensures OccupancyMismatch(Observed(s, inputs, cfg), inputs.sensors).None?
    ensures Step(s, inputs, cfg, id) == RobotWorkPhase(Observed(s, inputs, cfg), inputs.sensors, cfg, id)
  {
  }

  /** The same work as far as the robot can tell: the same part at O with the same
      coats, in its beat's role. */
  predicate SameWork(o: LineState, r: LineState) {
    && r.phase == o.phase && r.beat == o.beat && r.occupancy == o.occupancy && r.inQueue == o.inQueue
    && (o.PartAt(O).Some? ==>
         && r.PartAt(O).Some? && r.PartAt(O).value.partId == o.PartAt(O).value.partId
         && r.PartAt(O).value.coats == o.PartAt(O).value.coats && r.PartAt(O).value.role == Spec(r.beat).role)
  }

  lemma SameWorkAsks(o: LineState, r: LineState, sensors: Sensors, cfg: Config, id: nat, pid: PartId, coat: nat)
    requires SameWork(o, r) && o.phase == RobotWork
    requires Ledger.Asked(RobotWorkPhase(o, sensors, cfg, id).intents, pid, coat)
    ensures Ledger.Asked(RobotWorkPhase(r, sensors, cfg, id).intents, pid, coat)
  {
    Ledger.WorkRecords(o, sensors, cfg, id);
    Ledger.BatchSprays(r, r.PartAt(O).value.partId, id);
  }

  /** A file that agrees with the live state on everything but the timers. */
  predicate AgreesOnFile(s: LineState, t: LineState, declared: int) {
    KeyOf(t, declared) == KeyOf(s, declared)
  }

  lemma AgreedCoats(s: LineState, t: LineState, declared: int, pid: PartId)
    requires AgreesOnFile(s, t, declared) && pid in s.parts
    ensures pid in t.parts && t.parts[pid].coats == s.parts[pid].coats
  {
    assert Marks(t) == Marks(s);
    assert pid in Marks(s) && pid in Marks(t);
    assert Marks(s)[pid] == (s.parts[pid].coats, s.parts[pid].isWet);
    assert Marks(t)[pid] == (t.parts[pid].coats, t.parts[pid].isWet);
  }

  /** The state a confirmed restart hands to the next tick. */
  function Rejoined(s: LineState, id: nat): LineState {
    s.(pending := [id], sprayBurstActive := false)
  }

  lemma RestartRejoins(t: LineState, sensors: Sensors, id: nat)
    requires t.phase == RobotWork && t.fault.None? && t.faultPhase.None? && t.inFlight == [] && !NothingOnLine(t)
    requires OccupancyMismatch(t, sensors).None?
    ensures Resume(AsRestored(t), sensors, None, None, id).state == Rejoined(t, id).(sprayBurstActive := t.sprayBurstActive)
  {
  }

  lemma ObservedWork(cfg: Config, s: LineState, inputs: Inputs)
    requires KeyedById(s.parts)
    ensures
      var o := Observed(s, inputs, cfg);
      && o.occupancy == s.occupancy && o.inQueue == s.inQueue && o.beat == s.beat && o.phase == s.phase
      && o.PartAt(O).Some? == s.PartAt(O).Some?
      && (s.PartAt(O).Some? ==>
           && o.PartAt(O).value.partId == s.PartAt(O).value.partId && o.PartAt(O).value.coats == s.PartAt(O).value.coats
           && o.PartAt(O).value.role == s.PartAt(O).value.role)
  {
    AdvanceFlashPointwise(s, inputs.dt, cfg);
  }

  lemma FileDoesSameWork(all: seq<PartId>, cfg: Config, s: LineState, t: LineState, declared: int)
    requires OnSchedule(all, cfg, t) && t.phase == RobotWork && KeyedById(s.parts)
    requires AgreesOnFile(s, t, declared)
    ensures SameWork(s, t) && t.fault.None? && t.faultPhase.None?
  {
    PartAtO(all, cfg, t);
    KeyedParts(all, cfg, t);
    if s.PartAt(O).Some? {
      AgreedCoats(s, t, declared, s.occupancy[O]);
    }
  }

  lemma ObservedSameWork(cfg: Config, s: LineState, t: LineState, first: Inputs, second: Inputs)
    requires SameWork(s, t) && KeyedById(s.parts) && KeyedById(t.parts)
    ensures SameWork(Observed(s, first, cfg), Observed(t, second, cfg))
  {
    ObservedWork(cfg, s, first);
    ObservedWork(cfg, t, second);
  }

  lemma SameMismatch(s: LineState, t: LineState, sensors: Sensors)
    requires s.occupancy == t.occupancy
    ensures OccupancyMismatch(s, sensors) == OccupancyMismatch(t, sensors)
  {
  }

  /** With its homing done and nothing amiss, a tick in the work phase is the work. */
  lemma WorkTick(cfg: Config, t: LineState, inputs: Inputs, id: nat, home: nat)
    requires t.phase == RobotWork && t.pending == [home] && home in inputs.completed && inputs.fault.None?
    requires OccupancyMismatch(t, inputs.sensors).None?
    ensures Step(t, inputs, cfg, id) == RobotWorkPhase(Observed(t, inputs, cfg), inputs.sensors, cfg, id)
  {
    assert Remaining([home], inputs.completed) == [];
    SameMismatch(t, Observed(t, inputs, cfg), inputs.sensors);
  }

  lemma AgainAsks(cfg: Config, s: LineState, r: LineState, inputs: Inputs, again: Inputs, id: nat, home: nat,
                  pid: PartId, coat: nat)
    requires SameWork(s, r) && KeyedById(s.parts) && KeyedById(r.parts) && r.pending == [home]
    requires Ledger.Asked(Step(s, inputs, cfg, id).intents, pid, coat)
    requires again.sensors == inputs.sensors && again.fault.None? && home in again.completed
    ensures Ledger.Asked(Step(r, again, cfg, id).intents, pid, coat)
  {
    SprayNeedsWork(cfg, s, inputs, id, pid, coat);
    ObservedSameWork(cfg, s, r, inputs, again);
    SameMismatch(r, Observed(s, inputs, cfg), inputs.sensors);
    WorkTick(cfg, r, again, id, home);
    SameWorkAsks(Observed(s, inputs, cfg), Observed(r, again, cfg), inputs.sensors, cfg, id, pid, coat);
  }

  lemma TickAsks(cfg: Config, s: LineState, f1: bool, f2: bool, inputs: Inputs, id: nat)
    ensures Runs.React(cfg, s, Runs.Tick(f1, f2, inputs, id)).intents == Step(Runs.Sensed(s, f1, f2), inputs, cfg, id).intents
  {
  }

  /** The restart: what the file reads back as, confirmed by the operator as it stands. */
  function Restarted(file: File, sensors: Sensors, home: nat): LineState {
    Resume(Restored(file), sensors, None, None, home).state
  }

  lemma RestartedWorks(all: seq<PartId>, cfg: Config, s: LineState, file: File, declared: int, sensors: Sensors, home: nat)
    requires Read(file).Some? && OnSchedule(all, cfg, Read(file).value.0) && KeyedById(s.parts)
    requires AgreesOnFile(s, Read(file).value.0, declared) && s.phase == RobotWork && s.parts != map[]
    requires OccupancyMismatch(s, sensors).None?
    ensures
      var r := Restarted(file, sensors, home);
      SameWork(s, r) && KeyedById(r.parts) && r.pending == [home]
  {
    var t := Read(file).value.0;
    FileDoesSameWork(all, cfg, s, t, declared);
    KeyedParts(all, cfg, t);
    var pid :| pid in s.parts;
    AgreedCoats(s, t, declared, pid);
    SameMismatch(s, t, sensors);
    RestartRejoins(t, sensors, home);
  }

  /** The saving order matters: lose the tick that starts a spray and its save, and
      from any file that agrees with the line as it stood before that tick, timers
      apart, the confirmed restart asks for the same coat of the same part again. */
  lemma CrashBeforeSaveReCoats(
    all: seq<PartId>, cfg: Config, s: LineState, f1: bool, f2: bool, inputs: Inputs, file: File, declared: int,
    id: nat, home: nat, again: Inputs, pid: PartId, coat: nat)
    requires Read(file).Some? && OnSchedule(all, cfg, Read(file).value.0) && KeyedById(s.parts)
    requires AgreesOnFile(s, Read(file).value.0, declared)
    requires Ledger.Asked(Runs.React(cfg, s, Runs.Tick(f1, f2, inputs, id)).intents, pid, coat)
    requires again.sensors == inputs.sensors && again.fault.None? && home in again.completed
    ensures Ledger.Asked(
      Runs.React(cfg, Restarted(file, inputs.sensors, home), Runs.Tick(f1, f2, again, id)).intents, pid, coat)
  {
    var u, r := Runs.Sensed(s, f1, f2), Restarted(file, inputs.sensors, home);
    TickAsks(cfg, s, f1, f2, inputs, id);
    SprayNeedsWork(cfg, u, inputs, id, pid, coat);
    SameMismatch(s, Observed(u, inputs, cfg), inputs.sensors);
    AskedMeansParts(cfg, u, inputs, id, pid, coat);
    RestartedWorks(all, cfg, s, file, declared, inputs.sensors, home);
    SensedSameWork(s, r, f1, f2);
    AgainAsks(cfg, u, Runs.Sensed(r, f1, f2), inputs, again, id, home, pid, coat);
    TickAsks(cfg, r, f1, f2, again, id);
  }

  lemma SensedSameWork(s: LineState, r: LineState, f1: bool, f2: bool)
    requires SameWork(s, r)
    ensures SameWork(Runs.Sensed(s, f1, f2), Runs.Sensed(r, f1, f2))
  {
  }

  lemma AskedMeansParts(cfg: Config, u: LineState, inputs: Inputs, id: nat, pid: PartId, coat: nat)
    requires KeyedById(u.parts) && Ledger.Asked(Step(u, inputs, cfg, id).intents, pid, coat)
    ensures u.parts != map[]
  {
    AdvanceFlashPointwise(u, inputs.dt, cfg);
    Ledger.StepSprays(cfg, u, inputs, id, pid, coat);
  }

  lemma ActRemembers(cfg: Config, declared: int, p: Plant, a: Act)
    requires Remembers(p.store)
    ensures Remembers(After(cfg, declared, p, a).store)
  {
    if a.Snap? {
      MaybeSavedAgrees(p.store, p.live, declared, a.now);
    }
  }

  lemma {:induction false} CrashRunRemembers(
    all: seq<PartId>, cfg: Config, declared: int, plants: seq<Plant>, acts: seq<Act>, k: nat)
    requires k < |plants| && IsCrashRun(cfg, declared, plants, acts) && FirstStart(all, plants[0])
    ensures Remembers(plants[k].store)
  {
    if k > 0 {
      CrashRunRemembers(all, cfg, declared, plants, acts, k - 1);
      ActRemembers(cfg, declared, plants[k - 1], acts[k - 1]);
    }
  }

  /** Just saved: the file is on some schedule and agrees with the line. */
  predicate JustSaved(all: seq<PartId>, cfg: Config, declared: int, p: Plant) {
    && !p.unsaved && Read(p.store.file).Some?
    && AgreesOnFile(p.live, Read(p.store.file).value.0, declared)
    && Fits(all, cfg, Read(p.store.file).value.0) && KeyedById(p.live.parts)
  }

  lemma FitsIsKeyed(all: seq<PartId>, cfg: Config, s: LineState)
    requires Fits(all, cfg, s)
    ensures KeyedById(s.parts)
  {
    if OnSchedule(all, cfg, s) {
      KeyedParts(all, cfg, s);
    } else {
      KeyedParts([], cfg, s);
    }
  }

  lemma SnapIsSaved(
    all: seq<PartId>, cfg: Config, declared: int, plants: seq<Plant>, acts: seq<Act>, k: nat)
    requires 0 < k < |plants| && IsCrashRun(cfg, declared, plants, acts) && FirstStart(all, plants[0])
    requires acts[k - 1].Snap?
    ensures JustSaved(all, cfg, declared, plants[k])
  {
    CrashRunRemembers(all, cfg, declared, plants, acts, k - 1);
    CrashRunFits(all, cfg, declared, plants, acts, k);
    MaybeSavedAgrees(plants[k - 1].store, plants[k - 1].live, declared, acts[k - 1].now);
    FitsIsKeyed(all, cfg, plants[k].live);
  }

  lemma LostSprayIsAskedAgain(
    all: seq<PartId>, cfg: Config, declared: int, p: Plant, f1: bool, f2: bool, inputs: Inputs, id: nat, home: nat,
    again: Inputs, pid: PartId, coat: nat)
    requires JustSaved(all, cfg, declared, p)
    requires Ledger.Asked(Runs.React(cfg, p.live, Runs.Tick(f1, f2, inputs, id)).intents, pid, coat)
    requires again.sensors == inputs.sensors && again.fault.None? && home in again.completed
    ensures Ledger.Asked(
      Runs.React(cfg, Restarted(p.store.file, inputs.sensors, home), Runs.Tick(f1, f2, again, id)).intents, pid, coat)
  {
    var t := Read(p.store.file).value.0;
    if OnSchedule(all, cfg, t) {
      CrashBeforeSaveReCoats(all, cfg, p.live, f1, f2, inputs, p.store.file, declared, id, home, again, pid, coat);
    } else {
      CrashBeforeSaveReCoats([], cfg, p.live, f1, f2, inputs, p.store.file, declared, id, home, again, pid, coat);
    }
  }

  /** Some spray of the lost tick is asked for again. */
  ghost predicate Repeats(lost: seq<Intent>, now: seq<Intent>) {
    exists pid, coat :: Ledger.Asked(lost, pid, coat) && Ledger.Asked(now, pid, coat)
  }

  /** The condition is exact: in any run, when a crash takes away a turn's tick before
      its save, the confirmed restart repeats a spray of that tick if and only if the
      tick had asked for one, that is, if and only if a spray was unsaved. */
  lemma LostTurnRepeats(
    all: seq<PartId>, cfg: Config, declared: int, plants: seq<Plant>, acts: seq<Act>, k: nat,
    f1: bool, f2: bool, inputs: Inputs, id: nat, home: nat, again: Inputs)
    requires IsCrashRun(cfg, declared, plants, acts) && FirstStart(all, plants[0])
    requires 0 < k && k + 1 < |acts| && acts[k - 1].Snap? && acts[k + 1].Crash?
    requires acts[k] == Live(Runs.Tick(f1, f2, inputs, id))
    requires again.sensors == inputs.sensors && again.fault.None? && home in again.completed
    ensures
      var resumed := Resume(plants[k + 2].live, inputs.sensors, None, None, home).state;
      Repeats(Intents(cfg, plants[k], acts[k]), Runs.React(cfg, resumed, Runs.Tick(f1, f2, again, id)).intents)
      <==> plants[k + 1].unsaved
  {
    SnapIsSaved(all, cfg, declared, plants, acts, k);
    var p := plants[k];
    var lost := Intents(cfg, p, acts[k]);
    assert plants[k + 1] == After(cfg, declared, p, acts[k]);
    assert plants[k + 2] == After(cfg, declared, plants[k + 1], acts[k + 1]);
    assert plants[k + 2].live == Restored(p.store.file);
    if Sprays(lost) {
      var spray :| spray in lost && spray.SprayPart?;
      assert Ledger.Asked(lost, spray.part, spray.coat);
      LostSprayIsAskedAgain(all, cfg, declared, p, f1, f2, inputs, id, home, again, spray.part, spray.coat);
    }
  }

  // -------------------------------------------------- a crash mid-advance

  /** The train has moved, no record of the move survived, and yet the line can go
      on: nothing was fed in and nothing was taken off. */
  predicate Recoverable(s: LineState) {
    || s.beat == P2
    || (s.beat == P1 && F2 !in s.occupancy)
    || (s.beat == P3 && s.inQueue == [])
  }

  function ResumedMoved(s: LineState, sensors: Sensors, beat: Option<Beat>, id: nat): LineState {
    Resume(AsRestored(Erased(s)), sensors, Some(Advanced(s).occupancy), beat, id).state
  }

  lemma ResumedShape(s: LineState, sensors: Sensors, beat: Option<Beat>, id: nat)
    requires s.phase == Moving && s.fault.None? && s.faultPhase.None? && !NothingOnLine(s)
    requires OccupancyMismatch(Advanced(s), sensors).None?
    ensures
      var b := if beat.Some? then beat.value else s.beat;
      ResumedMoved(s, sensors, beat, id) ==
        Erased(s).(occupancy := Advanced(s).occupancy, beat := b, phase := RobotWork, pending := [id])
  {
  }

  lemma MovedInFull(s: LineState)
    requires Recoverable(s) && (forall st :: st in s.occupancy ==> s.occupancy[st] != EmptyId)
    ensures LayoutOf(Advanced(s)) == Layout(Advanced(s).occupancy, s.inQueue, s.parts)
  {
    AdvanceIsShift(s);
  }

  lemma RecoverableResumes(all: seq<PartId>, cfg: Config, s: LineState, sensors: Sensors, id: nat)
    requires ReadyToAdvance(all, cfg, s) && !NothingOnLine(s)
    requires OccupancyMismatch(Advanced(s), sensors).None?
    requires Recoverable(s)
    ensures OnSchedule(all, cfg, ResumedMoved(s, sensors, Some(NextBeat(s.beat)), id))
  {
    ScheduledIdsNamed(all, cfg, s);
    MovedInFull(s);
    AdvanceKeepsSchedule(all, cfg, s);
    ResumedShape(s, sensors, Some(NextBeat(s.beat)), id);
    Rephased(all, cfg, Advanced(s), ResumedMoved(s, sensors, Some(NextBeat(s.beat)), id));
  }

  /** Ids from number `low` on are pairwise different. */
  predicate DistinctFrom(all: seq<PartId>, low: int) {
    forall i, k :: 0 <= i < k < |all| && low <= i ==> all[i] != all[k]
  }

  lemma ScheduledDistinct(all: seq<PartId>, cfg: Config, s: LineState)
    requires OnSchedule(all, cfg, s)
    ensures DistinctFrom(all, LowNumber(EffBeat(s), EffPair(s)))
  {
    forall i, k | 0 <= i < k < |all| && LowNumber(EffBeat(s), EffPair(s)) <= i ensures all[i] != all[k] {
      DistinctOnLine(all, cfg, s, i, k);
    }
  }

  predicate StandsAs(all: seq<PartId>, p: map<Station, PartId>, b: Beat, j: int) {
    && At(p, F1) == Occupant(all, b, j, F1)
    && At(p, O) == Occupant(all, b, j, O)
    && At(p, F2) == Occupant(all, b, j, F2)
  }

  /** After the last transition of a pair no beat of that pair matches the map. */
  lemma PairIsOver(all: seq<PartId>, p: map<Station, PartId>, b: Beat, j: int)
    requires DistinctFrom(all, 2 * j) && j >= -1 && (2 * j < |all| && |all| > 0)
    requires StandsAs(all, p, P1, j + 1)
    ensures !StandsAs(all, p, b, j)
  {
  }

  /** A part fed in is still in the queue, so only its own beat could match, and
      that beat's queue is shorter. */
  lemma FedTwice(all: seq<PartId>, p: map<Station, PartId>, b: Beat, j: int)
    requires DistinctFrom(all, 2 * j) && j >= -1 && 2 * j + 2 < |all|
    requires StandsAs(all, p, P4, j)
    ensures !(StandsAs(all, p, b, j) && Clamp(NextNumber(b, j), |all|) == 2 * j + 2)
  {
  }

  /** A part taken off is still on record, and belongs only to the beat it left in. */
  lemma LeftButRecorded(all: seq<PartId>, p: map<Station, PartId>, b: Beat, j: int)
    requires DistinctFrom(all, 2 * j - 1) && 0 <= 2 * j - 1 < |all|
    requires StandsAs(all, p, P2, j)
    ensures !(StandsAs(all, p, b, j) && LowNumber(b, j) <= 2 * j - 1)
  {
  }

  lemma LiveMeansMore(all: seq<PartId>, cfg: Config, s: LineState)
    requires OnSchedule(all, cfg, s) && !AfterMove(s) && LiveMoves(s) != []
    ensures all != [] && LowNumber(s.beat, s.pairIndex - 1) < |all|
  {
    var m := LiveMoves(s)[0];
    LiveIs(s, m);
    PlaceOf(all, cfg, s, m.src);
    PlaceOf(all, cfg, s, IN);
  }

  lemma MovedStands(all: seq<PartId>, cfg: Config, s: LineState)
    requires ReadyToAdvance(all, cfg, s)
    ensures StandsAs(all, Advanced(s).occupancy, NextBeat(s.beat), NextPair(s.beat, s.pairIndex - 1))
  {
    AdvancedPlace(all, cfg, s, F1);
    AdvancedPlace(all, cfg, s, O);
    AdvancedPlace(all, cfg, s, F2);
    assert LayoutOf(Advanced(s)).occupancy == Advanced(s).occupancy;
  }

  lemma StandsOnSchedule(all: seq<PartId>, cfg: Config, s: LineState)
    requires OnSchedule(all, cfg, s)
    ensures StandsAs(all, s.occupancy, EffBeat(s), EffPair(s))
    ensures |s.inQueue| == |all| - Clamp(NextNumber(EffBeat(s), EffPair(s)), |all|)
  {
    PlaceOf(all, cfg, s, F1);
    PlaceOf(all, cfg, s, O);
    PlaceOf(all, cfg, s, F2);
    assert LayoutOf(s).inQueue == s.inQueue;
  }

  lemma RecordedFromLow(all: seq<PartId>, cfg: Config, s: LineState, pid: PartId)
    requires OnSchedule(all, cfg, s) && pid in s.parts
    ensures LowNumber(EffBeat(s), EffPair(s)) <= Number(s.parts[pid])
  {
    assert PartFits(all, cfg, EffBeat(s), EffPair(s), WorkDone(s), pid, s.parts[pid]);
  }

  lemma OutgoingRecorded(all: seq<PartId>, cfg: Config, s: LineState)
    requires OnSchedule(all, cfg, s) && !AfterMove(s) && s.beat == P1 && F2 in s.occupancy
    ensures 0 <= 2 * (s.pairIndex - 1) - 1 < |all|
    ensures s.occupancy[F2] in s.parts && Number(s.parts[s.occupancy[F2]]) == 2 * (s.pairIndex - 1) - 1
  {
    PlaceOf(all, cfg, s, F2);
  }

  lemma FedStaysOff(all: seq<PartId>, p: map<Station, PartId>, b: Beat, c: Beat, j: int, waiting: nat)
    requires DistinctFrom(all, LowNumber(b, j)) && j >= -1 && all != [] && LowNumber(b, j) < |all|
    requires StandsAs(all, p, NextBeat(b), NextPair(b, j))
    requires waiting == |all| - Clamp(NextNumber(b, j), |all|)
    requires b == P4 || (b == P3 && waiting > 0)
    ensures !(StandsAs(all, p, c, j) && waiting == |all| - Clamp(NextNumber(c, j), |all|))
  {
    if b == P4 {
      PairIsOver(all, p, c, j);
    } else {
      FedTwice(all, p, c, j);
    }
  }

  /** What the resumed line would have to satisfy at beat `c`. */
  predicate Claims(all: seq<PartId>, cfg: Config, t: LineState, j: int) {
    && StandsAs(all, t.occupancy, t.beat, j)
    && |t.inQueue| == |all| - Clamp(NextNumber(t.beat, j), |all|)
    && (forall pid :: pid in t.parts ==> LowNumber(t.beat, j) <= Number(t.parts[pid]))
  }

  lemma ClaimsOf(all: seq<PartId>, cfg: Config, t: LineState)
    requires OnSchedule(all, cfg, t) && t.phase == RobotWork
    ensures Claims(all, cfg, t, t.pairIndex - 1)
  {
    StandsOnSchedule(all, cfg, t);
    forall pid | pid in t.parts ensures LowNumber(t.beat, t.pairIndex - 1) <= Number(t.parts[pid]) {
      RecordedFromLow(all, cfg, t, pid);
    }
  }

  lemma UnrecoverableStaysOff(all: seq<PartId>, cfg: Config, s: LineState, t: LineState)
    requires ReadyToAdvance(all, cfg, s) && LiveMoves(s) != [] && !Recoverable(s)
    requires t.phase == RobotWork && t.pairIndex == s.pairIndex && t.parts == s.parts
    requires t.occupancy == Advanced(s).occupancy && |t.inQueue| == |s.inQueue|
    ensures !OnSchedule(all, cfg, t)
  {
    ClaimsFail(all, cfg, s, t);
    if OnSchedule(all, cfg, t) {
      ClaimsOf(all, cfg, t);
    }
  }

  lemma ClaimsFail(all: seq<PartId>, cfg: Config, s: LineState, t: LineState)
    requires ReadyToAdvance(all, cfg, s) && LiveMoves(s) != [] && !Recoverable(s)
    requires t.pairIndex == s.pairIndex && t.parts == s.parts
    requires t.occupancy == Advanced(s).occupancy && |t.inQueue| == |s.inQueue|
    ensures !Claims(all, cfg, t, s.pairIndex - 1)
  {
    var j := s.pairIndex - 1;
    MovedStands(all, cfg, s);
    ScheduledDistinct(all, cfg, s);
    LiveMeansMore(all, cfg, s);
    StandsOnSchedule(all, cfg, s);
    if s.beat == P1 {
      OutgoingRecorded(all, cfg, s);
      LeftButRecorded(all, t.occupancy, t.beat, j);
    } else {
      FedStaysOff(all, t.occupancy, s.beat, t.beat, j, |s.inQueue|);
    }
  }

  /** The exact reach of recovery after a crash mid-advance, the train having moved:
      the moves in flight are not stored, so confirming the true map, with whatever
      beat, puts the line back on schedule just when the move fed nothing in and took
      nothing off. */
  lemma MidAdvanceCrash(all: seq<PartId>, cfg: Config, s: LineState, sensors: Sensors, id: nat)
    requires ReadyToAdvance(all, cfg, s) && LiveMoves(s) != [] && s.pairIndex >= 0
    requires OccupancyMismatch(Advanced(s), sensors).None?
    ensures (exists beat :: OnSchedule(all, cfg, ResumedMoved(s, sensors, beat, id))) <==> Recoverable(s)
  {
    LiveMeansRecorded(all, cfg, s);
    if Recoverable(s) {
      RecoverableResumes(all, cfg, s, sensors, id);
    } else {
      forall beat ensures !OnSchedule(all, cfg, ResumedMoved(s, sensors, beat, id)) {
        ResumedShape(s, sensors, beat, id);
        UnrecoverableStaysOff(all, cfg, s, ResumedMoved(s, sensors, beat, id));
      }
    }
  }

  lemma LiveMeansRecorded(all: seq<PartId>, cfg: Config, s: LineState)
    requires OnSchedule(all, cfg, s) && s.phase == Moving && LiveMoves(s) != []
    ensures !NothingOnLine(s) && s.fault.None? && s.faultPhase.None?
  {
    LiveMeansMore(all, cfg, s);
    StandsOnSchedule(all, cfg, s);
    assert all[|all| - 1] in s.parts;
  }
}

/** The state machine closed over the simulated line: what the line is doing is a
    function of the machine's phase, at every instant inside every tick. */
module ClosedLoop {
  import opened Model
  import opened Schedule
  import opened Timers
  import opened Guards
  import opened Machine
  import opened Moves
  import opened Pattern
  import opened Safety
  import opened Recovery
  import FL = FakeLine

  // ------------------------------------------------------- the line's part

  /** The fan a loaded station should have in this beat. */
  function Want(s: LineState, st: Station): bool {
    (if st == F1 then Spec(s.beat).f1Fan else Spec(s.beat).f2Fan) && s.Holds(st)
  }

  predicate FansSet(s: LineState, line: FL.Line) {
    line.f1Fan == Want(s, F1) && line.f2Fan == Want(s, F2)
  }

  predicate IsPrep(i: Intent) { i.SandPart? || i.CleanGun? }
  predicate IsSpray(i: Intent) { i.SprayPart? }
  predicate IsHome(i: Intent) { i.MoveToSafePose? }
  predicate IsF1(i: Intent, on: bool) { i.SetFan? && i.station == F1 && i.on == on }
  predicate IsF2(i: Intent, on: bool) { i.SetFan? && i.station == F2 && i.on == on }

  /** What is left of prep, spray, retreat. */
  predicate PlainTail(w: seq<Intent>) {
    || w == []
    || (|w| == 1 && IsHome(w[0]))
    || (|w| == 2 && IsSpray(w[0]) && IsHome(w[1]))
    || (|w| == 3 && IsPrep(w[0]) && IsSpray(w[1]) && IsHome(w[2]))
  }

  /** What is left of prep, fan off, spray, fan on, retreat. */
  predicate PausedTail(w: seq<Intent>) {
    || w == []
    || (|w| == 1 && IsHome(w[0]))
    || (|w| == 2 && IsF1(w[0], true) && IsHome(w[1]))
    || (|w| == 3 && IsSpray(w[0]) && IsF1(w[1], true) && IsHome(w[2]))
    || (|w| == 4 && IsF1(w[0], false) && IsSpray(w[1]) && IsF1(w[2], true) && IsHome(w[3]))
    || (|w| == 5 && IsPrep(w[0]) && IsF1(w[1], false) && IsSpray(w[2]) && IsF1(w[3], true) && IsHome(w[4]))
  }

  predicate WetUnderF1(s: LineState) {
    s.PartAt(F1).Some? && s.PartAt(F1).value.isWet
  }

  /** Whatever is to be sprayed is the part standing at O. */
  predicate SpraysAtO(s: LineState, w: seq<Intent>) {
    forall i :: 0 <= i < |w| && w[i].SprayPart? ==> O in s.occupancy && w[i].part == s.occupancy[O]
  }

  /** The work batch, from its first intent to none left. */
  predicate WorkFits(s: LineState, line: FL.Line) {
    var w := line.Work();
    && (w != [] ==> s.PartAt(O).Some?)
    && SpraysAtO(s, w)
    && line.f2Fan == Want(s, F2)
    && (PlainFits(s, w, line.f1Fan) || PausedFits(s, w, line.f1Fan))
  }

  predicate PlainFits(s: LineState, w: seq<Intent>, f1Fan: bool) {
    PlainTail(w) && f1Fan == Want(s, F1) && (|w| >= 2 ==> !(Want(s, F1) && WetUnderF1(s)))
  }

  /** The fan is off exactly between the two intents that bracket the burst. */
  predicate PausedFits(s: LineState, w: seq<Intent>, f1Fan: bool) {
    PausedTail(w) && Want(s, F1) && f1Fan == (|w| != 2 && |w| != 3)
  }

  predicate FanBatchFits(s: LineState, line: FL.Line) {
    var w := line.Work();
    && |w| <= 2
    && (if |w| >= 1 then IsF2(w[|w| - 1], Want(s, F2)) else line.f2Fan == Want(s, F2))
    && (if |w| >= 2 then IsF1(w[|w| - 2], Want(s, F1)) else line.f1Fan == Want(s, F1))
  }

  predicate ShutterFits(line: FL.Line, from: Shutter, target: Shutter) {
    var w := line.Work();
    if w == [] then line.shutter == target
    else
      && |w| == 1 && w[0].SetShutter? && w[0].target == target
      && line.shutter == if line.current.Some? then Travelling else from
  }

  predicate TrainFits(s: LineState, line: FL.Line) {
    var w := line.Work();
    if w == [] then line.occupied == FL.Carried(s.occupancy.Keys, s.inFlight)
    else |w| == 1 && w[0].AdvanceTrain? && w[0].moves == s.inFlight && line.occupied == s.occupancy.Keys
  }

  predicate PhaseFits(s: LineState, line: FL.Line) {
    match s.phase
    case RobotWork => line.shutter == Closed && line.occupied == s.occupancy.Keys && FanBatchFits(s, line)
    case AwaitGuards => line.shutter == Closed && line.occupied == s.occupancy.Keys && WorkFits(s, line)
    case ShutterOpen =>
      line.shutter == Closed && line.occupied == s.occupancy.Keys && line.Work() == [] && FansSet(s, line)
    case Moving =>
      if s.inFlight == [] then line.occupied == s.occupancy.Keys && ShutterFits(line, Closed, Open) && FansSet(s, line)
      else line.shutter == Open && TrainFits(s, line)
    case ShutterClose => line.shutter == Open && line.occupied == s.occupancy.Keys && line.Work() == []
    case SetFans => line.occupied == s.occupancy.Keys && ShutterFits(line, Open, Closed)
    case Faulted => false
  }

  /** The gun is live exactly while a spray executes; the robot is inside the
      envelope only while work ending in a retreat is under way. */
  predicate RobotFits(line: FL.Line) {
    var w := line.Work();
    && (line.gunOn <==> line.current.Some? && IsSpray(line.current.value))
    && (!line.robotClear ==> w != [] && IsHome(w[|w| - 1]))
  }

  predicate LineFits(s: LineState, line: FL.Line) {
    RobotFits(line) && PhaseFits(s, line)
  }

  // --------------------------------------------------- instants of a tick

  lemma StartedWork(cfg: Config, line: FL.Line)
    requires line.current.None? && line.queue != []
    ensures FL.Started(cfg, line).Work() == line.Work()
  {
  }

  /** Starting touches the gun, the robot and the shutter, never a fan or a part. */
  lemma StartedKeeps(cfg: Config, line: FL.Line)
    requires line.current.None? && line.queue != []
    ensures
      var next := FL.Started(cfg, line);
      && next.f1Fan == line.f1Fan && next.f2Fan == line.f2Fan && next.occupied == line.occupied
      && next.current == Some(line.Work()[0])
      && next.shutter == if line.Work()[0].SetShutter? then Travelling else line.shutter
  {
  }

  lemma StartedPhase(cfg: Config, s: LineState, line: FL.Line)
    requires PhaseFits(s, line) && line.current.None? && line.queue != []
    ensures PhaseFits(s, FL.Started(cfg, line))
  {
    StartedWork(cfg, line);
    StartedKeeps(cfg, line);
  }

  lemma StartedFits(cfg: Config, s: LineState, line: FL.Line)
    requires LineFits(s, line) && line.current.None? && line.queue != []
    ensures LineFits(s, FL.Started(cfg, line))
  {
    StartedWork(cfg, line);
    StartedPhase(cfg, s, line);
  }

  lemma CompletedWork(line: FL.Line)
    requires line.current.Some?
    ensures FL.Completed(line).Work() == line.Work()[1..]
  {
  }

  lemma CompletedRobot(line: FL.Line)
    requires RobotFits(line) && line.current.Some?
    ensures RobotFits(FL.Completed(line))
  {
    CompletedWork(line);
  }

  lemma PlainShrinks(w: seq<Intent>)
    requires PlainTail(w) && w != []
    ensures PlainTail(w[1..]) && (IsPrep(w[0]) || IsSpray(w[0]) || IsHome(w[0]))
  {
  }

  lemma PausedShrinks(w: seq<Intent>)
    requires PausedTail(w) && w != []
    ensures PausedTail(w[1..])
    ensures if |w| == 4 then IsF1(w[0], false) else if |w| == 2 then IsF1(w[0], true)
      else IsPrep(w[0]) || IsSpray(w[0]) || IsHome(w[0])
  {
  }

  lemma CompletedPlain(s: LineState, line: FL.Line)
    requires line.current.Some? && PlainFits(s, line.Work(), line.f1Fan)
    ensures PlainFits(s, FL.Completed(line).Work(), FL.Completed(line).f1Fan)
    ensures FL.Completed(line).f2Fan == line.f2Fan
    ensures FL.Completed(line).shutter == line.shutter && FL.Completed(line).occupied == line.occupied
  {
    CompletedWork(line);
    PlainShrinks(line.Work());
    assert line.Work()[0] == line.current.value;
  }

  /** What completing one intent of a work batch does to fans, shutter and parts. */
  lemma CompletedEffect(line: FL.Line)
    requires line.current.Some?
    ensures
      var i, next := line.current.value, FL.Completed(line);
      && (IsPrep(i) || IsSpray(i) || IsHome(i) ==>
           next.f1Fan == line.f1Fan && next.f2Fan == line.f2Fan && next.shutter == line.shutter && next.occupied == line.occupied)
      && (i.SetFan? && i.station == F1 ==>
           next.f1Fan == i.on && next.f2Fan == line.f2Fan && next.shutter == line.shutter && next.occupied == line.occupied)
  {
  }

  lemma CompletedPaused(s: LineState, line: FL.Line)
    requires line.current.Some? && PausedFits(s, line.Work(), line.f1Fan)
    ensures PausedFits(s, FL.Completed(line).Work(), FL.Completed(line).f1Fan)
    ensures FL.Completed(line).f2Fan == line.f2Fan
    ensures FL.Completed(line).shutter == line.shutter && FL.Completed(line).occupied == line.occupied
  {
    CompletedWork(line);
    CompletedEffect(line);
    PausedShrinks(line.Work());
    assert line.Work()[0] == line.current.value;
  }

  lemma CompletedBatch(s: LineState, line: FL.Line)
    requires line.current.Some? && WorkFits(s, line)
    ensures WorkFits(s, FL.Completed(line))
    ensures FL.Completed(line).shutter == line.shutter && FL.Completed(line).occupied == line.occupied
  {
    if PlainFits(s, line.Work(), line.f1Fan) {
      CompletedPlain(s, line);
    } else {
      CompletedPaused(s, line);
    }
  }

  lemma CompletedFans(s: LineState, line: FL.Line)
    requires line.current.Some? && FanBatchFits(s, line)
    ensures FanBatchFits(s, FL.Completed(line))
    ensures FL.Completed(line).shutter == line.shutter && FL.Completed(line).occupied == line.occupied
  {
    CompletedWork(line);
  }

  lemma CompletedTrain(s: LineState, line: FL.Line)
    requires line.current.Some? && TrainFits(s, line)
    ensures TrainFits(s, FL.Completed(line)) && FL.Completed(line).shutter == line.shutter
  {
    CompletedWork(line);
    assert line.Work()[0] == line.current.value;
  }

  lemma CompletedFits(s: LineState, line: FL.Line)
    requires LineFits(s, line) && line.current.Some?
    ensures LineFits(s, FL.Completed(line))
  {
    CompletedWork(line);
    CompletedRobot(line);
    match s.phase
    case RobotWork => CompletedFans(s, line);
    case AwaitGuards => CompletedBatch(s, line);
    case ShutterOpen =>
    case Moving => if s.inFlight != [] { CompletedTrain(s, line); }
    case ShutterClose =>
    case SetFans =>
  }

  lemma ChangeFits(cfg: Config, s: LineState, line: FL.Line, budget: real)
    requires LineFits(s, line) && !FL.Halts(line, budget)
    ensures LineFits(s, FL.Change(cfg, line, budget).0)
  {
    if line.current.None? {
      StartedFits(cfg, s, line);
    } else {
      CompletedFits(s, line);
    }
  }

  lemma ElapsedFits(s: LineState, line: FL.Line, budget: real)
    requires LineFits(s, line)
    ensures LineFits(s, FL.Elapsed(line, budget))
  {
    assert FL.Elapsed(line, budget).Work() == line.Work();
  }

  /** `x` is one of the states the line passes through during `budget` seconds. */
  predicate PassesThrough(cfg: Config, line: FL.Line, budget: real, x: FL.Line)
    decreases |line.queue|, line.current.Some?
  {
    x == line ||
    if FL.Halts(line, budget) then x == FL.Elapsed(line, budget)
    else
      var (next, left) := FL.Change(cfg, line, budget);
      PassesThrough(cfg, next, left, x)
  }

  /** A property no change and no passage of time can break. */
  ghost predicate Stable(cfg: Config, p: FL.Line -> bool) {
    && (forall line, budget :: p(line) && !FL.Halts(line, budget) ==> p(FL.Change(cfg, line, budget).0))
    && (forall line, budget :: p(line) ==> p(FL.Elapsed(line, budget)))
  }

  lemma {:induction false} StableThroughout(cfg: Config, p: FL.Line -> bool, line: FL.Line, budget: real, x: FL.Line)
    requires Stable(cfg, p) && p(line) && PassesThrough(cfg, line, budget, x)
    ensures p(x)
    decreases |line.queue|, line.current.Some?
  {
    if x != line && !FL.Halts(line, budget) {
      var (next, left) := FL.Change(cfg, line, budget);
      StableThroughout(cfg, p, next, left, x);
    }
  }

  lemma LineFitsIsStable(cfg: Config, s: LineState)
    ensures Stable(cfg, line => LineFits(s, line))
  {
    var p := line => LineFits(s, line);
    forall line, budget | p(line) && !FL.Halts(line, budget) ensures p(FL.Change(cfg, line, budget).0) {
      ChangeFits(cfg, s, line, budget);
    }
    forall line, budget | p(line) ensures p(FL.Elapsed(line, budget)) {
      ElapsedFits(s, line, budget);
    }
  }

  /** The line's part is played at every instant of the tick, not only at its end. */
  lemma InstantFits(cfg: Config, s: LineState, line: FL.Line, budget: real, x: FL.Line)
    requires LineFits(s, line) && PassesThrough(cfg, line, budget, x)
    ensures LineFits(s, x)
  {
    LineFitsIsStable(cfg, s);
    StableThroughout(cfg, l => LineFits(s, l), line, budget, x);
  }

  lemma {:induction false} AdvancePassesThrough(cfg: Config, line: FL.Line, budget: real)
    ensures PassesThrough(cfg, line, budget, FL.Advance(cfg, line, budget).0)
    decreases |line.queue|, line.current.Some?
  {
    if !FL.Halts(line, budget) {
      var (next, left) := FL.Change(cfg, line, budget);
      AdvancePassesThrough(cfg, next, left);
    }
  }

  lemma AdvanceFits(cfg: Config, s: LineState, line: FL.Line, budget: real)
    requires LineFits(s, line)
    ensures LineFits(s, FL.Advance(cfg, line, budget).0)
  {
    AdvancePassesThrough(cfg, line, budget);
    InstantFits(cfg, s, line, budget, FL.Advance(cfg, line, budget).0);
  }

  // ----------------------------------------------------------------- loop

  /** The controller, the line, and the first intent id not yet used. */
  datatype Cell = Cell(state: LineState, line: FL.Line, nextId: nat)

  /** The state the controller steps from: fans as sensed, the upstream one forced
      off while the gun is live. */
  function SensedState(s: LineState, line: FL.Line): LineState {
    s.(f1Fan := if line.gunOn then false else line.f1Fan, f2Fan := line.f2Fan)
  }

  function LoopInputs(s: LineState, line: FL.Line, done: set<nat>, dt: real): Inputs {
    Inputs(dt, FL.Sense(line, |s.inQueue|), done, None)
  }

  /** One turn of the simulator's loop. */
  function Tick(cfg: Config, dt: real, c: Cell): Cell {
    var (line, done) := FL.Advance(cfg, c.line, dt);
    var r := Step(SensedState(c.state, line), LoopInputs(c.state, line, done, dt), cfg, c.nextId);
    Cell(r.state, line.(queue := line.queue + r.intents), r.nextId)
  }

  /** Outstanding work carries the most recent ids, in order. */
  predicate Numbered(work: seq<Intent>, nextId: nat) {
    forall i :: 0 <= i < |work| ==> work[i].id == nextId - |work| + i
  }

  predicate InSync(all: seq<PartId>, cfg: Config, c: Cell) {
    && OnSchedule(all, cfg, c.state) && c.state.phase != Faulted
    && LineFits(c.state, c.line)
    && Numbered(c.line.Work(), c.nextId)
    && c.state.pending == Ids(c.line.Work())
    && (c.line.Work() == [] ==> c.state.inFlight == [])
  }

  // -------------------------------------------------- completions land

  /** The first k of the work are completed, and the rest is what is left. */
  ghost predicate Drops(w: seq<Intent>, after: seq<Intent>, done: set<nat>, nextId: nat, k: nat) {
    && k <= |w| && after == w[k..]
    && forall x: nat :: x in done <==> nextId - |w| <= x < nextId - |w| + k
  }

  lemma DropsOneMore(w: seq<Intent>, after: seq<Intent>, done: set<nat>, nextId: nat, k: nat)
    requires Numbered(w, nextId) && w != [] && Drops(w[1..], after, done, nextId, k)
    ensures Drops(w, after, {w[0].id} + done, nextId, k + 1)
  {
    assert w[1..][k..] == w[k + 1..];
  }

  lemma NumberedTail(w: seq<Intent>, nextId: nat)
    requires Numbered(w, nextId) && w != []
    ensures Numbered(w[1..], nextId)
  {
  }

  /** Completing the current intent, then going on. */
  lemma CompletedFirst(cfg: Config, line: FL.Line, budget: real)
    requires line.current.Some? && !FL.Halts(line, budget)
    ensures
      var (after, done) := FL.Advance(cfg, FL.Completed(line), budget - line.remaining);
      FL.Advance(cfg, line, budget) == (after, {line.Work()[0].id} + done)
    ensures FL.Completed(line).Work() == line.Work()[1..]
  {
    CompletedWork(line);
    assert line.Work()[0] == line.current.value;
  }

  /** Completions are a prefix of the work, and what is left is the rest. */
  lemma {:induction false} AdvanceDrops(cfg: Config, line: FL.Line, budget: real, nextId: nat) returns (k: nat)
    requires Numbered(line.Work(), nextId)
    ensures Drops(line.Work(), FL.Advance(cfg, line, budget).0.Work(), FL.Advance(cfg, line, budget).1, nextId, k)
    decreases |line.queue|, line.current.Some?
  {
    if FL.Halts(line, budget) {
      k := 0;
      assert FL.Elapsed(line, budget).Work() == line.Work();
    } else if line.current.None? {
      StartedWork(cfg, line);
      k := AdvanceDrops(cfg, FL.Started(cfg, line), budget, nextId);
    } else {
      var w, left := line.Work(), budget - line.remaining;
      CompletedFirst(cfg, line, budget);
      NumberedTail(w, nextId);
      k := AdvanceDrops(cfg, FL.Completed(line), left, nextId);
      DropsOneMore(w, FL.Advance(cfg, FL.Completed(line), left).0.Work(), FL.Advance(cfg, FL.Completed(line), left).1, nextId, k);
      k := k + 1;
    }
  }

  lemma {:induction false} RemainingAfter(w: seq<Intent>, k: nat, done: set<nat>)
    requires k <= |w|
    requires forall i :: 0 <= i < k ==> w[i].id in done
    requires forall i :: k <= i < |w| ==> w[i].id !in done
    ensures Remaining(Ids(w), done) == Ids(w[k..])
    decreases |w|
  {
    if w != [] {
      var rest := w[1..];
      assert Ids(w)[0] == w[0].id && Ids(w)[1..] == Ids(rest);
      if k > 0 {
        RemainingAfter(rest, k - 1, done);
        assert rest[k - 1..] == w[k..];
      } else {
        RemainingAfter(rest, 0, done);
        assert w[0..] == w && rest[0..] == rest;
      }
    }
  }

  /** After the line's share of a tick, the pending ids are those of the work left. */
  lemma PendingTracks(cfg: Config, line: FL.Line, nextId: nat, dt: real)
    requires Numbered(line.Work(), nextId)
    ensures
      var (after, done) := FL.Advance(cfg, line, dt);
      Remaining(Ids(line.Work()), done) == Ids(after.Work()) && Numbered(after.Work(), nextId)
  {
    var (after, done) := FL.Advance(cfg, line, dt);
    var w := line.Work();
    var k := AdvanceDrops(cfg, line, dt, nextId);
    RemainingAfter(w, k, done);
  }

  // ------------------------------------------------------------ dispatching

  lemma LineFitsDepends(s: LineState, t: LineState, line: FL.Line)
    requires LineFits(s, line)
    requires t.phase == s.phase && t.inFlight == s.inFlight && t.beat == s.beat && t.occupancy == s.occupancy
    requires t.parts.Keys == s.parts.Keys && (WetUnderF1(t) ==> WetUnderF1(s))
    ensures LineFits(t, line)
  {
    assert Want(s, F1) == Want(t, F1) && Want(s, F2) == Want(t, F2);
  }

  predicate AllOffered(l: Layout, moves: seq<Move>) {
    forall m :: m in moves ==> Offered(l, m.src).Some?
  }

  /** With every source loaded, the line's own bookkeeping agrees with the map. */
  lemma {:induction false} CarriedIsShifted(l: Layout, moves: seq<Move>)
    requires WellOrdered(moves) && AllOffered(l, moves)
    requires IN !in l.occupancy
    ensures FL.Carried(l.occupancy.Keys, moves) == ApplyMoves(l, moves).occupancy.Keys
    decreases |moves|
  {
    if moves != [] {
      var m, rest := moves[0], moves[1..];
      var next := ApplyMove(l, m);
      assert m in moves;
      assert next.occupancy.Keys == if m.dst == OUT then l.occupancy.Keys - {m.src} else l.occupancy.Keys - {m.src} + {m.dst};
      forall x | x in rest ensures Offered(next, x.src).Some? {
        assert x in moves;
      }
      CarriedIsShifted(next, rest);
    }
  }

  /** The moves in flight are well ordered and every source is loaded. */
  predicate FlightLoaded(s: LineState) {
    WellOrdered(s.inFlight) && AllOffered(LayoutOf(s), s.inFlight) && IN !in s.occupancy
  }

  lemma FlightIsLoaded(all: seq<PartId>, cfg: Config, s: LineState)
    requires OnSchedule(all, cfg, s)
    ensures FlightLoaded(s)
  {
    ScheduleIsWellOrdered(s.beat);
    FilterWellOrdered(s, TransitionMoves(s.beat));
    assert At(LayoutOf(s).occupancy, IN) == Occupant(all, EffBeat(s), EffPair(s), IN);
    forall m | m in s.inFlight ensures Offered(LayoutOf(s), m.src).Some? {
      LiveIs(s, m);
    }
  }

  predicate Idle(line: FL.Line) {
    line.queue == [] && line.current.None?
  }

  /** What a dispatch over an idle line has to leave behind. */
  predicate Launched(line: FL.Line, r: StepResult) {
    && r.state.phase != Faulted
    && LineFits(r.state, line.(queue := r.intents))
    && Numbered(r.intents, r.nextId)
    && r.state.pending == Ids(r.intents)
    && (r.intents == [] ==> r.state.inFlight == [])
  }

  predicate Dispatchable(all: seq<PartId>, cfg: Config, o: LineState, line: FL.Line) {
    OnSchedule(all, cfg, o) && o.phase != Faulted && o.pending == [] && LineFits(o, line) && Idle(line)
  }

  lemma CoatedKeepsF1(all: seq<PartId>, cfg: Config, o: LineState, parts: map<PartId, PartState>)
    requires OnSchedule(all, cfg, o) && o.phase == RobotWork && Coated(o, parts)
    ensures o.(parts := parts).PartAt(F1) == o.PartAt(F1)
    ensures O in o.occupancy ==> o.(parts := parts).PartAt(O).Some?
  {
    var b, j := o.beat, o.pairIndex - 1;
    assert At(LayoutOf(o).occupancy, O) == Occupant(all, b, j, O);
    assert At(LayoutOf(o).occupancy, F1) == Occupant(all, b, j, F1);
    ScheduledIdsNamed(all, cfg, o);
    if O in o.occupancy {
      PartAtO(all, cfg, o);
      if F1 in o.occupancy {
        DistinctOnLine(all, cfg, o, NumberAt(b, j, O).value, NumberAt(b, j, F1).value);
        assert o.occupancy[F1] != o.occupancy[O];
      }
    }
  }

  lemma BatchTail(o: LineState, pid: PartId, id: nat)
    ensures var w := WorkBatch(o, pid, id); if Pausing(o) then PausedTail(w) && |w| == 5 else PlainTail(w) && |w| == 3
    ensures var w := WorkBatch(o, pid, id); Numbered(w, id + |w|) && w != [] && IsHome(w[|w| - 1])
  {
  }

  lemma BatchLaunches(o: LineState, line: FL.Line, t: LineState, pid: PartId, id: nat)
    requires LineFits(o, line) && Idle(line) && o.phase == RobotWork && o.inFlight == []
    requires t.phase == AwaitGuards && t.inFlight == [] && t.beat == o.beat && t.occupancy == o.occupancy
    requires t.PartAt(F1) == o.PartAt(F1) && t.PartAt(O).Some?
    requires O in o.occupancy && o.occupancy[O] == pid
    ensures LineFits(t, line.(queue := WorkBatch(o, pid, id)))
  {
    var after := line.(queue := WorkBatch(o, pid, id));
    BatchTail(o, pid, id);
    assert after.Work() == WorkBatch(o, pid, id) && line.Work() == [];
    assert Want(t, F1) == Want(o, F1) && Want(t, F2) == Want(o, F2);
    assert Pausing(o) ==> Want(t, F1);
    assert Want(t, F1) && WetUnderF1(t) ==> Pausing(o);
    assert if Pausing(o) then PausedFits(t, after.Work(), after.f1Fan) else PlainFits(t, after.Work(), after.f1Fan);
  }

  lemma SkipLaunches(o: LineState, line: FL.Line)
    requires LineFits(o, line) && Idle(line) && o.phase == RobotWork
    ensures LineFits(o.(phase := AwaitGuards), line)
  {
    var t := o.(phase := AwaitGuards);
    assert line.Work() == [];
    assert Want(t, F1) == Want(o, F1) && Want(t, F2) == Want(o, F2);
    assert PlainFits(t, [], line.f1Fan);
  }

  /** The work phase stays, passes on, faults on a role, or launches its batch. */
  lemma WorkCases(o: LineState, sensors: Sensors, cfg: Config, id: nat)
    ensures
      var r := RobotWorkPhase(o, sensors, cfg, id);
      || (r.intents == [] && (r.state == o || r.state == o.(phase := AwaitGuards)))
      || (o.PartAt(O).Some? && o.PartAt(O).value.role != Spec(o.beat).role)
      || (o.PartAt(O).Some? && r.intents == WorkBatch(o, o.PartAt(O).value.partId, id)
          && r.state == o.(phase := AwaitGuards, parts := r.state.parts, pending := o.pending + Ids(r.intents))
          && r.nextId == id + |r.intents|)
  {
  }

  lemma WorkReady(all: seq<PartId>, cfg: Config, o: LineState, line: FL.Line, id: nat)
    requires Dispatchable(all, cfg, o, line) && o.phase == RobotWork
    ensures
      var r := RobotWorkPhase(o, FL.Sense(line, |o.inQueue|), cfg, id);
      || (r.intents == [] && (r.state == o || r.state == o.(phase := AwaitGuards)))
      || (o.PartAt(O).Some? && r.intents == WorkBatch(o, o.PartAt(O).value.partId, id) && Coated(o, r.state.parts)
          && r.state == o.(phase := AwaitGuards, parts := r.state.parts, pending := Ids(r.intents))
          && r.nextId == id + |r.intents|)
  {
    var r := RobotWorkPhase(o, FL.Sense(line, |o.inQueue|), cfg, id);
    RobotWorkOutcome(all, cfg, o, FL.Sense(line, |o.inQueue|), id);
    RoleFits(all, cfg, o);
    WorkCases(o, FL.Sense(line, |o.inQueue|), cfg, id);
    assert o.pending + Ids(r.intents) == Ids(r.intents);
  }

  lemma RoleFits(all: seq<PartId>, cfg: Config, o: LineState)
    requires OnSchedule(all, cfg, o) && o.phase == RobotWork
    ensures o.PartAt(O).Some? ==> o.PartAt(O).value.role == Spec(o.beat).role
  {
    PartAtO(all, cfg, o);
  }

  lemma WorkUnderWay(all: seq<PartId>, cfg: Config, o: LineState, line: FL.Line, id: nat, t: LineState)
    requires Dispatchable(all, cfg, o, line) && o.phase == RobotWork && o.PartAt(O).Some?
    requires t == o.(phase := AwaitGuards, parts := t.parts, pending := t.pending) && Coated(o, t.parts)
    ensures LineFits(t, line.(queue := WorkBatch(o, o.PartAt(O).value.partId, id)))
  {
    PartAtO(all, cfg, o);
    CoatedKeepsF1(all, cfg, o, t.parts);
    BatchLaunches(o, line, t, o.PartAt(O).value.partId, id);
  }

  /** With the shutter closed and the part in place, work starts at once. */
  lemma WorkLaunches(all: seq<PartId>, cfg: Config, o: LineState, line: FL.Line, id: nat)
    requires Dispatchable(all, cfg, o, line) && o.phase == RobotWork
    ensures Launched(line, RobotWorkPhase(o, FL.Sense(line, |o.inQueue|), cfg, id))
  {
    var r := RobotWorkPhase(o, FL.Sense(line, |o.inQueue|), cfg, id);
    WorkReady(all, cfg, o, line, id);
    if r.intents == [] {
      SkipLaunches(o, line);
      assert line.(queue := []) == line;
    } else {
      BatchTail(o, o.PartAt(O).value.partId, id);
      WorkUnderWay(all, cfg, o, line, id, r.state);
    }
  }

  lemma GuardLaunches(o: LineState, line: FL.Line, cfg: Config, id: nat)
    requires LineFits(o, line) && Idle(line) && o.phase == AwaitGuards && o.inFlight == [] && o.pending == []
    ensures Launched(line, AwaitGuardsPhase(o, FL.Sense(line, |o.inQueue|), cfg, id))
  {
    assert line.(queue := []) == line && line.Work() == [];
  }

  lemma ShutterLaunches(o: LineState, line: FL.Line, cfg: Config, id: nat)
    requires LineFits(o, line) && Idle(line) && o.pending == [] && o.inFlight == []
    requires o.phase == ShutterOpen || o.phase == ShutterClose
    ensures Launched(line, Dispatch(o, FL.Sense(line, |o.inQueue|), cfg, id))
  {
    var r := Dispatch(o, FL.Sense(line, |o.inQueue|), cfg, id);
    assert line.(queue := r.intents).Work() == r.intents && line.Work() == [];
  }

  lemma FansLaunch(o: LineState, line: FL.Line, id: nat)
    requires LineFits(o, line) && Idle(line) && o.pending == [] && o.inFlight == []
    requires o.phase == SetFans
    ensures Launched(line, SetFansPhase(o, id))
  {
    var r := SetFansPhase(o, id);
    assert line.(queue := r.intents).Work() == r.intents && line.Work() == [];
  }

  lemma {:induction false} CarriedKeeps(occupied: set<Station>, moves: seq<Move>, st: Station)
    requires st in occupied && !Leaves(moves, st)
    ensures st in FL.Carried(occupied, moves)
    decreases |moves|
  {
    if moves != [] {
      var m := moves[0];
      assert m in moves && m.src != st;
      assert forall x :: x in moves[1..] ==> x in moves;
      CarriedKeeps(if m.dst == OUT then occupied - {m.src} else occupied - {m.src} + {m.dst}, moves[1..], st);
    }
  }

  lemma {:induction false} CarriedArrives(occupied: set<Station>, moves: seq<Move>, m: Move)
    requires WellOrdered(moves) && m in moves && m.dst != OUT
    ensures m.dst in FL.Carried(occupied, moves)
    decreases |moves|
  {
    var h, rest := moves[0], moves[1..];
    var next := if h.dst == OUT then occupied - {h.src} else occupied - {h.src} + {h.dst};
    if m == h {
      CarriedKeeps(next, rest, m.dst);
    } else {
      CarriedArrives(next, rest, m);
    }
  }

  lemma TrainLands(o: LineState, line: FL.Line, cfg: Config, id: nat)
    requires LineFits(o, line) && Idle(line) && o.pending == [] && FlightLoaded(o) && o.fault.None?
    requires o.phase == Moving && o.inFlight != []
    ensures Launched(line, MovingPhase(o, FL.Sense(line, |o.inQueue|), cfg, id))
  {
    assert line.(queue := []) == line && line.Work() == [];
    forall st | st in Arrivals(o.inFlight) ensures st in line.occupied {
      var m :| m in o.inFlight && m.dst != OUT && m.dst == st;
      CarriedArrives(o.occupancy.Keys, o.inFlight, m);
    }
    assert Arrivals(o.inFlight) - line.occupied == {};
    CarriedIsShifted(LayoutOf(o), o.inFlight);
  }

  lemma TrainDeparts(o: LineState, line: FL.Line, moves: seq<Move>, id: nat)
    requires LineFits(o, line) && Idle(line) && line.shutter == Open
    requires o.phase == Moving && o.inFlight == [] && moves != []
    ensures
      var train := [AdvanceTrain(id, TransitionDirection(o.beat), moves)];
      LineFits(o.(inFlight := moves, pending := [id]), line.(queue := train))
  {
    var train := [AdvanceTrain(id, TransitionDirection(o.beat), moves)];
    assert line.(queue := train).Work() == train && line.Work() == [];
  }

  lemma NothingToMove(o: LineState, line: FL.Line)
    requires LineFits(o, line) && Idle(line) && o.phase == Moving && o.inFlight == []
    ensures LineFits(o.(phase := ShutterClose), line) && line.shutter == Open && line.(queue := []) == line
  {
    assert line.Work() == [];
  }

  lemma TrainStarts(o: LineState, line: FL.Line, cfg: Config, id: nat)
    requires LineFits(o, line) && Idle(line) && o.pending == []
    requires o.phase == Moving && o.inFlight == []
    ensures Launched(line, MovingPhase(o, FL.Sense(line, |o.inQueue|), cfg, id))
  {
    NothingToMove(o, line);
    var moves := LiveMoves(o);
    if moves != [] {
      TrainDeparts(o, line, moves, id);
    }
    TrainOutcome(o, FL.Sense(line, |o.inQueue|), cfg, id);
  }

  lemma TrainOutcome(o: LineState, sensors: Sensors, cfg: Config, id: nat)
    requires o.phase == Moving && o.inFlight == [] && o.pending == []
    ensures
      var r := MovingPhase(o, sensors, cfg, id);
      || r == Stay(o.(phase := ShutterClose), None, id)
      || (r.state == o && r.intents == [] && r.nextId == id)
      || (LiveMoves(o) != [] && r.intents == [AdvanceTrain(id, TransitionDirection(o.beat), LiveMoves(o))]
          && r.state == o.(inFlight := LiveMoves(o), pending := [id]) && Ids(r.intents) == [id] && r.nextId == id + 1)
  {
  }

  lemma DispatchLaunches(all: seq<PartId>, cfg: Config, o: LineState, line: FL.Line, id: nat)
    requires Dispatchable(all, cfg, o, line)
    ensures Launched(line, Dispatch(o, FL.Sense(line, |o.inQueue|), cfg, id))
  {
    match o.phase
    case RobotWork => WorkLaunches(all, cfg, o, line, id);
    case AwaitGuards => GuardLaunches(o, line, cfg, id);
    case ShutterOpen => ShutterLaunches(o, line, cfg, id);
    case Moving =>
      FlightIsLoaded(all, cfg, o);
      if o.inFlight != [] { TrainLands(o, line, cfg, id); } else { TrainStarts(o, line, cfg, id); }
    case ShutterClose => ShutterLaunches(o, line, cfg, id);
    case SetFans => FansLaunch(o, line, id);
  }

  // -------------------------------------------------------------- one tick

  /** The controller's view once the line has moved and time has been banked. */
  function Seen(cfg: Config, dt: real, c: Cell): LineState {
    var (line, done) := FL.Advance(cfg, c.line, dt);
    Observed(SensedState(c.state, line), LoopInputs(c.state, line, done, dt), cfg)
  }

  function Moved(cfg: Config, dt: real, c: Cell): FL.Line {
    FL.Advance(cfg, c.line, dt).0
  }

  lemma ObservedStaysDry(s: LineState, dt: real, cfg: Config, pending: seq<nat>)
    requires KeyedById(s.parts)
    ensures
      var t := s.(parts := AdvanceFlash(s, dt, cfg), pending := pending);
      t.parts.Keys == s.parts.Keys && (WetUnderF1(t) ==> WetUnderF1(s))
  {
    AdvanceFlashPointwise(s, dt, cfg);
  }

  lemma SeenOnSchedule(all: seq<PartId>, cfg: Config, dt: real, c: Cell)
    requires OnSchedule(all, cfg, c.state) && dt > 0.0
    ensures OnSchedule(all, cfg, SensedState(c.state, Moved(cfg, dt, c)))
    ensures OnSchedule(all, cfg, Seen(cfg, dt, c))
  {
    var u := SensedState(c.state, Moved(cfg, dt, c));
    FlightCarries(cfg, c.state, u);
    Rephased(all, cfg, c.state, u);
    ObservedKeeps(all, cfg, u, Seen(cfg, dt, c).pending, dt);
  }

  lemma SeenState(all: seq<PartId>, cfg: Config, dt: real, c: Cell)
    requires InSync(all, cfg, c) && dt > 0.0
    ensures OnSchedule(all, cfg, Seen(cfg, dt, c)) && Seen(cfg, dt, c).phase == c.state.phase != Faulted
    ensures LineFits(Seen(cfg, dt, c), Moved(cfg, dt, c))
  {
    var line := Moved(cfg, dt, c);
    var u := SensedState(c.state, line);
    SeenOnSchedule(all, cfg, dt, c);
    AdvanceFits(cfg, c.state, c.line, dt);
    KeyedParts(all, cfg, u);
    ObservedStaysDry(u, dt, cfg, Seen(cfg, dt, c).pending);
    LineFitsDepends(c.state, Seen(cfg, dt, c), line);
  }

  lemma SeenPending(all: seq<PartId>, cfg: Config, dt: real, c: Cell)
    requires InSync(all, cfg, c)
    ensures Seen(cfg, dt, c).pending == Ids(Moved(cfg, dt, c).Work())
    ensures Numbered(Moved(cfg, dt, c).Work(), c.nextId)
  {
    PendingTracks(cfg, c.line, c.nextId, dt);
  }

  lemma NoMismatch(s: LineState, line: FL.Line, n: nat)
    requires LineFits(s, line) && s.phase != Moving
    ensures OccupancyMismatch(s, FL.Sense(line, n)).None?
  {
  }

  /** With no fault and no mismatch, a step waits on pending work or dispatches. */
  lemma TickUnfolds(cfg: Config, dt: real, c: Cell)
    requires c.state.phase != Faulted
    requires c.state.phase != Moving ==>
      OccupancyMismatch(Seen(cfg, dt, c), FL.Sense(Moved(cfg, dt, c), |c.state.inQueue|)).None?
    ensures
      var o, line, t := Seen(cfg, dt, c), Moved(cfg, dt, c), Tick(cfg, dt, c);
      if o.pending != [] then t == Cell(o, line.(queue := line.queue + []), c.nextId)
      else
        var r := Dispatch(o, FL.Sense(line, |o.inQueue|), cfg, c.nextId);
        t == Cell(r.state, line.(queue := line.queue + r.intents), r.nextId)
  {
  }

  /** A tick either leaves the controller waiting on unfinished work or dispatches
      over an idle line; it never faults. */
  lemma TickCases(all: seq<PartId>, cfg: Config, dt: real, c: Cell)
    requires InSync(all, cfg, c) && dt > 0.0
    ensures
      var o, line, t := Seen(cfg, dt, c), Moved(cfg, dt, c), Tick(cfg, dt, c);
      if line.Work() != [] then t == Cell(o, line, c.nextId)
      else
        var r := Dispatch(o, FL.Sense(line, |o.inQueue|), cfg, c.nextId);
        && Dispatchable(all, cfg, o, line)
        && t == Cell(r.state, line.(queue := r.intents), r.nextId)
  {
    SeenState(all, cfg, dt, c);
    SeenPending(all, cfg, dt, c);
    var o, line := Seen(cfg, dt, c), Moved(cfg, dt, c);
    if o.phase != Moving {
      NoMismatch(o, line, |c.state.inQueue|);
    }
    TickUnfolds(cfg, dt, c);
    IdleWork(line);
    assert line.queue + [] == line.queue;
  }

  lemma IdleWork(line: FL.Line)
    ensures line.Work() == [] <==> Idle(line)
    ensures Ids(line.Work()) == [] <==> line.Work() == []
    ensures Idle(line) ==> forall intents: seq<Intent> :: line.queue + intents == intents
  {
  }

  /** The controller and the line stay in step, tick after tick. */
  lemma TickKeeps(all: seq<PartId>, cfg: Config, dt: real, c: Cell)
    requires InSync(all, cfg, c) && dt > 0.0
    ensures InSync(all, cfg, Tick(cfg, dt, c))
  {
    TickCases(all, cfg, dt, c);
    SeenState(all, cfg, dt, c);
    SeenPending(all, cfg, dt, c);
    var o, line := Seen(cfg, dt, c), Moved(cfg, dt, c);
    if line.Work() == [] {
      DispatchKeeps(all, cfg, o, FL.Sense(line, |o.inQueue|), c.nextId);
      DispatchLaunches(all, cfg, o, line, c.nextId);
      var r := Dispatch(o, FL.Sense(line, |o.inQueue|), cfg, c.nextId);
      assert line.(queue := r.intents).Work() == r.intents;
    }
  }

  // ----------------------------------------------------------- interlocks

  lemma SprayInterlock(s: LineState, x: FL.Line, inCount: nat)
    requires LineFits(s, x) && x.current.Some? && x.current.value.SprayPart?
    ensures SprayBlocked(s, FL.Sense(x, inCount)).None?
    ensures O in s.occupancy && x.current.value.part == s.occupancy[O]
    ensures x.shutter == Closed && x.gunOn && !(WetUnderF1(s) && x.f1Fan)
  {
    assert x.Work()[0] == x.current.value;
  }

  lemma TrainInterlock(s: LineState, x: FL.Line)
    requires LineFits(s, x) && x.current.Some? && x.current.value.AdvanceTrain?
    ensures x.shutter == Open && !x.gunOn && x.robotClear
  {
    assert x.Work()[0] == x.current.value;
  }

  /** The spray and motion interlocks hold by construction at every instant of a tick:
      under a live spray the shutter is closed, that part is at O and no running F1
      fan blows on a wet part; under a moving train the shutter is open, the gun
      off and the robot clear. */
  lemma InterlocksHold(cfg: Config, s: LineState, line: FL.Line, budget: real, x: FL.Line, inCount: nat)
    requires LineFits(s, line)
    requires PassesThrough(cfg, line, budget, x) && x.current.Some?
    ensures x.current.value.SprayPart? ==>
      && SprayBlocked(s, FL.Sense(x, inCount)).None?
      && O in s.occupancy && x.current.value.part == s.occupancy[O]
      && x.shutter == Closed && x.gunOn && !(WetUnderF1(s) && x.f1Fan)
    ensures x.current.value.AdvanceTrain? ==> x.shutter == Open && !x.gunOn && x.robotClear
  {
    InstantFits(cfg, s, line, budget, x);
    if x.current.value.SprayPart? {
      SprayInterlock(s, x, inCount);
    } else if x.current.value.AdvanceTrain? {
      TrainInterlock(s, x);
    }
  }

  /** The line shows what it does: the gun live exactly in a spray, the robot in the
      envelope during any work, the shutter travelling while it is sent. */
  predicate Shows(line: FL.Line) {
    && (line.gunOn <==> line.current.Some? && line.current.value.SprayPart?)
    && (line.current.Some? && FL.EntersEnvelope(line.current.value) ==> !line.robotClear)
    && (line.current.Some? && line.current.value.SetShutter? ==> line.shutter == Travelling)
  }

  lemma ShowsIsStable(cfg: Config)
    ensures Stable(cfg, line => Shows(line))
  {
    var p := line => Shows(line);
    forall line, budget | p(line) && !FL.Halts(line, budget) ensures p(FL.Change(cfg, line, budget).0) {
      if line.current.None? {
        FL.StartShows(cfg, line);
      } else {
        FL.FinishShows(line);
      }
    }
  }

  /** So it does at every instant of any stretch of time, whatever is queued. */
  lemma LineAlwaysShows(cfg: Config, line: FL.Line, budget: real, x: FL.Line)
    requires Shows(line) && PassesThrough(cfg, line, budget, x)
    ensures Shows(x)
  {
    ShowsIsStable(cfg);
    StableThroughout(cfg, l => Shows(l), line, budget, x);
  }

  // ------------------------------------------------------------ whole runs

  /** A stretch of the closed loop, turn by turn. */
  ghost predicate IsLoop(cfg: Config, dt: real, cells: seq<Cell>) {
    && cells != []
    && forall k {:trigger Follows(cfg, dt, cells, k)} :: 0 <= k < |cells| - 1 ==> Follows(cfg, dt, cells, k)
  }

  predicate Follows(cfg: Config, dt: real, cells: seq<Cell>, k: int)
    requires 0 <= k < |cells| - 1
  {
    cells[k + 1] == Tick(cfg, dt, cells[k])
  }

  lemma LoopExtends(cfg: Config, dt: real, cells: seq<Cell>, next: Cell)
    requires IsLoop(cfg, dt, cells) && next == Tick(cfg, dt, cells[|cells| - 1])
    ensures IsLoop(cfg, dt, cells + [next])
  {
    var more := cells + [next];
    forall k | 0 <= k < |more| - 1 ensures Follows(cfg, dt, more, k) {
      assert k < |cells| - 1 ==> Follows(cfg, dt, cells, k);
    }
  }

  /** A declared batch in front of an idle, empty line. */
  predicate Start(all: seq<PartId>, c: Cell) {
    && Declared(all, c.state)
    && c.line == FL.IdleLine
  }

  lemma StartFits(s: LineState)
    requires s.occupancy == map[] && s.phase == RobotWork
    ensures LineFits(s, FL.IdleLine) && FL.IdleLine.Work() == []
  {
    assert FL.IdleLine.Work() == [];
  }

  lemma StartInSync(all: seq<PartId>, cfg: Config, c: Cell)
    requires Start(all, c)
    ensures InSync(all, cfg, c)
  {
    DeclaredOnSchedule(all, cfg, c.state);
    DeclaredIdle(all, c.state);
    StartFits(c.state);
  }

  lemma DeclaredIdle(all: seq<PartId>, s: LineState)
    requires Declared(all, s)
    ensures s.occupancy == map[] && s.phase == RobotWork && s.inFlight == [] && s.pending == Ids([])
  {
  }

  lemma {:induction false} LoopInvariant(cfg: Config, dt: real, p: Cell -> bool, cells: seq<Cell>, k: nat)
    requires forall c :: p(c) ==> p(Tick(cfg, dt, c))
    requires IsLoop(cfg, dt, cells) && p(cells[0]) && k < |cells|
    ensures p(cells[k])
  {
    if k > 0 {
      LoopInvariant(cfg, dt, p, cells, k - 1);
      assert Follows(cfg, dt, cells, k - 1);
    }
  }

  /** Controller and line are in step at every turn of every closed-loop run. */
  lemma AlwaysInSync(all: seq<PartId>, cfg: Config, dt: real, cells: seq<Cell>, k: nat)
    requires IsLoop(cfg, dt, cells) && Start(all, cells[0]) && dt > 0.0 && k < |cells|
    ensures InSync(all, cfg, cells[k])
  {
    var p := c => InSync(all, cfg, c);
    StartInSync(all, cfg, cells[0]);
    forall c | p(c) ensures p(Tick(cfg, dt, c)) {
      TickKeeps(all, cfg, dt, c);
    }
    LoopInvariant(cfg, dt, p, cells, k);
  }

  /** In every run of the closed loop, at every instant of every tick, the
      interlocks the machine never checks at that instant hold. */
  lemma RunInterlocks(all: seq<PartId>, cfg: Config, dt: real, cells: seq<Cell>, k: nat, x: FL.Line, inCount: nat)
    requires IsLoop(cfg, dt, cells) && Start(all, cells[0]) && dt > 0.0 && k < |cells|
    requires PassesThrough(cfg, cells[k].line, dt, x) && x.current.Some?
    ensures x.current.value.SprayPart? ==>
      && SprayBlocked(cells[k].state, FL.Sense(x, inCount)).None?
      && O in cells[k].state.occupancy && x.current.value.part == cells[k].state.occupancy[O]
      && x.shutter == Closed && x.gunOn && !(WetUnderF1(cells[k].state) && x.f1Fan)
    ensures x.current.value.AdvanceTrain? ==> x.shutter == Open && !x.gunOn && x.robotClear
    ensures cells[k].state.fault.None?
  {
    AlwaysInSync(all, cfg, dt, cells, k);
    InterlocksHold(cfg, cells[k].state, cells[k].line, dt, x, inCount);
  }
}

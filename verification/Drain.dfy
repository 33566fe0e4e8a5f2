/** Liveness of the closed loop: whatever the batch, the flash time, the tick and
    the durations, every part leaves, by a measure over the beats left, the phase,
    the queued work, the current intent and the flash still owed. */
module Drain {
  import opened Model
  import opened Schedule
  import opened Timers
  import opened Guards
  import opened Machine
  import opened Moves
  import opened Pattern
  import opened Safety
  import opened Recovery
  import Runs
  import opened ClosedLoop
  import FL = FakeLine

  // -------------------------------------------------------------- measure

  function BeatNumber(b: Beat): nat {
    match b case P1 => 0 case P2 => 1 case P3 => 2 case P4 => 3
  }

  /** Transitions that can still happen before the line is surely empty. */
  function BeatsLeft(all: seq<PartId>, s: LineState): int {
    2 * |all| + 20 - (4 * s.pairIndex + BeatNumber(s.beat))
  }

  function Rank(s: LineState): nat {
    match s.phase
    case RobotWork => 6
    case AwaitGuards => 5
    case ShutterOpen => 4
    case Moving => if s.inFlight == [] then 3 else 2
    case ShutterClose => 1
    case SetFans => 0
    case Faulted => 0
  }

  /** Whole ticks contained in a number of seconds. */
  function Ticks(seconds: real, dt: real): nat
    requires dt > 0.0
  {
    if seconds < 0.0 then 0 else (seconds / dt).Floor
  }

  lemma OneTickLess(seconds: real, dt: real)
    requires dt > 0.0 && seconds >= dt
    ensures Ticks(seconds - dt, dt) + 1 == Ticks(seconds, dt)
  {
    var q := seconds / dt;
    assert seconds == q * dt;
    assert seconds - dt == (q - 1.0) * dt;
    Quotient(seconds - dt, q - 1.0, dt);
  }

  lemma Quotient(x: real, q: real, d: real)
    requires d > 0.0 && x == q * d
    ensures x / d == q && (x >= 0.0 ==> q >= 0.0)
  {
  }

  function Clock(cfg: Config, dt: real, line: FL.Line): nat
    requires dt > 0.0
  {
    if line.current.Some? then Ticks(line.remaining, dt)
    else if line.queue != [] then Ticks(FL.Duration(cfg, line.queue[0]), dt) + 1
    else 0
  }

  /** The only fan station whose part owes its flash in this beat. */
  function FanStation(b: Beat): Station {
    if b == P3 then F1 else F2
  }

  function Owed(cfg: Config, dt: real, s: LineState): nat
    requires dt > 0.0
  {
    var part := s.PartAt(FanStation(s.beat));
    if part.Some? && !MayLeaveFan(part.value, cfg)
    then Ticks(cfg.flashSeconds - part.value.ActiveFlash(), dt) + 1
    else 0
  }

  /** One tick makes progress: the measure falls lexicographically. */
  predicate Falls(all: seq<PartId>, cfg: Config, dt: real, c: Cell, t: Cell)
    requires dt > 0.0
  {
    var b, r, w, k, f := BeatsLeft(all, c.state), Rank(c.state), |c.line.Work()|, Clock(cfg, dt, c.line), Owed(cfg, dt, c.state);
    var b', r', w', k', f' := BeatsLeft(all, t.state), Rank(t.state), |t.line.Work()|, Clock(cfg, dt, t.line), Owed(cfg, dt, t.state);
    b' < b || (b' == b && (r' < r || (r' == r && (w' < w || (w' == w && (k' < k || (k' == k && f' < f)))))))
  }

  // ------------------------------------------------------- waiting on work

  /** A tick that completes nothing wears the current intent down. */
  lemma ClockFalls(cfg: Config, dt: real, line: FL.Line)
    requires dt > 0.0 && line.Work() != []
    requires |FL.Advance(cfg, line, dt).0.Work()| == |line.Work()|
    ensures Clock(cfg, dt, FL.Advance(cfg, line, dt).0) < Clock(cfg, dt, line)
  {
    if line.current.None? {
      var started := FL.Started(cfg, line);
      StartedWork(cfg, line);
      assert FL.Advance(cfg, line, dt) == FL.Advance(cfg, started, dt);
      CurrentWears(cfg, dt, started);
    } else {
      CurrentWears(cfg, dt, line);
    }
  }

  lemma CurrentWears(cfg: Config, dt: real, line: FL.Line)
    requires dt > 0.0 && line.current.Some?
    requires |FL.Advance(cfg, line, dt).0.Work()| == |line.Work()|
    ensures line.remaining > dt
    ensures FL.Advance(cfg, line, dt).0 == FL.Elapsed(line, dt)
    ensures Ticks(line.remaining - dt, dt) + 1 == Ticks(line.remaining, dt)
  {
    if !FL.Halts(line, dt) {
      CompletedWork(line);
      AdvanceShrinks(cfg, FL.Completed(line), dt - line.remaining);
    }
    OneTickLess(line.remaining, dt);
  }

  lemma {:induction false} AdvanceShrinks(cfg: Config, line: FL.Line, budget: real)
    ensures |FL.Advance(cfg, line, budget).0.Work()| <= |line.Work()|
    decreases |line.queue|, line.current.Some?
  {
    if !FL.Halts(line, budget) {
      var (next, left) := FL.Change(cfg, line, budget);
      AdvanceShrinks(cfg, next, left);
      ChangeShrinks(cfg, line, budget);
    }
  }

  lemma ChangeShrinks(cfg: Config, line: FL.Line, budget: real)
    requires !FL.Halts(line, budget)
    ensures |FL.Change(cfg, line, budget).0.Work()| <= |line.Work()|
  {
  }

  lemma WorkingFalls(all: seq<PartId>, cfg: Config, dt: real, c: Cell)
    requires InSync(all, cfg, c) && dt > 0.0 && Moved(cfg, dt, c).Work() != []
    ensures Falls(all, cfg, dt, c, Tick(cfg, dt, c))
  {
    TickCases(all, cfg, dt, c);
    AdvanceShrinks(cfg, c.line, dt);
    if |Moved(cfg, dt, c).Work()| == |c.line.Work()| {
      ClockFalls(cfg, dt, c.line);
    }
  }

  // ------------------------------------------------------ waiting on flash

  /** A move under-flashed in this beat takes the part from the beat's fan. */
  lemma UnderFlashedAtFan(all: seq<PartId>, cfg: Config, o: LineState, m: Move)
    requires OnSchedule(all, cfg, o) && !AfterMove(o)
    requires m in TransitionMoves(o.beat) && UnderFlashed(o, cfg, m)
    ensures m.src == FanStation(o.beat)
  {
    PlaceOf(all, cfg, o, m.src);
    var pid := o.occupancy[m.src];
    assert PartFits(all, cfg, o.beat, o.pairIndex - 1, WorkDone(o), pid, o.parts[pid]);
    assert Number(o.parts[pid]) == NumberAt(o.beat, o.pairIndex - 1, m.src).value;
  }

  /** On schedule, a sensed map that matches belief never collides. */
  lemma NoCollision(all: seq<PartId>, cfg: Config, o: LineState)
    requires OnSchedule(all, cfg, o) && !AfterMove(o)
    ensures !Collides(LiveMoves(o), o.occupancy.Keys)
  {
    if Collides(LiveMoves(o), o.occupancy.Keys) {
      var m :| m in LiveMoves(o) && m.dst != OUT && m.dst in o.occupancy && !Leaves(LiveMoves(o), m.dst);
      LiveIs(o, m);
      PlaceOf(all, cfg, o, m.dst);
      ScheduledIdsNamed(all, cfg, o);
      var onward := OnwardMove(o.beat, m.dst);
      LiveIs(o, onward);
    }
  }

  /** The move that clears a destination the schedule also occupies. */
  function OnwardMove(b: Beat, st: Station): (m: Move)
    ensures st in {F1, O, F2} && !(b == P2 && st == F1) && !(b == P3 && st == F2) ==>
      m in TransitionMoves(b) && m.src == st
  {
    match st
    case F2 => if b == P2 then TransitionMoves(b)[1] else TransitionMoves(b)[0]
    case O => if b == P2 || b == P3 then TransitionMoves(b)[0] else TransitionMoves(b)[1]
    case F1 => if b == P3 then TransitionMoves(b)[1] else if b == P2 then TransitionMoves(b)[0] else TransitionMoves(b)[2]
    case IN => TransitionMoves(b)[0]
    case OUT => TransitionMoves(b)[0]
  }

  /** Over an idle line, only a flash still owed can hold the train. */
  lemma HeldIsFlash(all: seq<PartId>, cfg: Config, o: LineState, line: FL.Line) returns (m: Move)
    requires OnSchedule(all, cfg, o) && !AfterMove(o)
    requires RobotFits(line) && line.Work() == [] && line.current.None? && line.occupied == o.occupancy.Keys
    requires DepartureBlocked(o, FL.Sense(line, |o.inQueue|), cfg, LiveMoves(o)).Some?
    ensures m in TransitionMoves(o.beat) && UnderFlashed(o, cfg, m)
  {
    PlaceOf(all, cfg, o, IN);
    LiveIs(o, Move(IN, F1));
    ScheduleIsWellOrdered(o.beat);
    FilterWellOrdered(o, TransitionMoves(o.beat));
    NoCollision(all, cfg, o);
    WalkRejectsExactly(o, cfg, LiveMoves(o), line.occupied);
    m :| m in LiveMoves(o) && UnderFlashed(o, cfg, m);
    LiveIs(o, m);
  }

  predicate Waiting(s: LineState) {
    (s.phase == AwaitGuards || s.phase == Moving) && s.inFlight == []
  }

  lemma IdleLineStands(all: seq<PartId>, cfg: Config, dt: real, c: Cell)
    requires InSync(all, cfg, c) && c.line.Work() == []
    ensures Moved(cfg, dt, c) == c.line && !c.line.gunOn && Idle(c.line)
  {
  }

  lemma WaitingFan(s: LineState, line: FL.Line)
    requires LineFits(s, line) && Waiting(s) && line.Work() == []
    ensures s.Holds(FanStation(s.beat)) ==> if FanStation(s.beat) == F1 then line.f1Fan else line.f2Fan
  {
  }

  /** A part under a running fan owes one tick less after a tick. */
  lemma FanBanks(cfg: Config, dt: real, u: LineState, st: Station)
    requires KeyedById(u.parts) && dt > 0.0
    requires st == F1 || st == F2
    requires u.FanOn(st)
    requires
      var o := u.(parts := AdvanceFlash(u, dt, cfg));
      o.PartAt(st).Some? && !MayLeaveFan(o.PartAt(st).value, cfg)
    ensures
      var p, q := u.PartAt(st), u.(parts := AdvanceFlash(u, dt, cfg)).PartAt(st).value;
      p.Some? && !MayLeaveFan(p.value, cfg) && q.ActiveFlash() == p.value.ActiveFlash() + dt
  {
    AdvanceFlashPointwise(u, dt, cfg);
  }

  lemma OwedFalls(all: seq<PartId>, cfg: Config, dt: real, c: Cell)
    requires InSync(all, cfg, c) && dt > 0.0 && Waiting(c.state) && c.line.Work() == []
    requires
      var q := Seen(cfg, dt, c).PartAt(FanStation(c.state.beat));
      q.Some? && !MayLeaveFan(q.value, cfg)
    ensures Owed(cfg, dt, Seen(cfg, dt, c)) < Owed(cfg, dt, c.state)
  {
    var u := SensedState(c.state, c.line);
    var st := FanStation(c.state.beat);
    IdleLineStands(all, cfg, dt, c);
    WaitingFan(c.state, c.line);
    KeyedParts(all, cfg, c.state);
    FanBanks(cfg, dt, u, st);
    OneTickLess(cfg.flashSeconds - c.state.PartAt(st).value.ActiveFlash(), dt);
  }

  // -------------------------------------------------------------- dispatching

  predicate FanOwes(cfg: Config, s: LineState) {
    var part := s.PartAt(FanStation(s.beat));
    part.Some? && !MayLeaveFan(part.value, cfg)
  }

  predicate RankFalls(all: seq<PartId>, s: LineState, t: LineState) {
    BeatsLeft(all, t) < BeatsLeft(all, s) || (BeatsLeft(all, t) == BeatsLeft(all, s) && Rank(t) < Rank(s))
  }

  /** Some number on or behind the line is in the batch. */
  lemma SomeNumber(all: seq<PartId>, cfg: Config, s: LineState)
    requires OnSchedule(all, cfg, s) && s.parts != map[]
    ensures EffPair(s) >= -1 && LowNumber(EffBeat(s), EffPair(s)) < |all| && all != []
    ensures PlacesFit(all, EffBeat(s), EffPair(s), LayoutOf(s))
  {
    var pid :| pid in s.parts;
    assert PartFits(all, cfg, EffBeat(s), EffPair(s), WorkDone(s), pid, s.parts[pid]);
  }

  lemma LayoutNotEmpty(all: seq<PartId>, b: Beat, j: int, l: Layout)
    requires PlacesFit(all, b, j, l) && LowNumber(b, j) < |all| && all != []
    ensures l.occupancy != map[] || l.inQueue != []
  {
    Runs.OrderIsSuffix(all, b, j, l);
    assert Runs.LineOrder(l) != [];
  }

  /** Parts on record stand on the line or wait in front of it. */
  lemma LineNotEmpty(all: seq<PartId>, cfg: Config, s: LineState)
    requires OnSchedule(all, cfg, s) && s.parts != map[]
    ensures s.occupancy != map[] || s.inQueue != []
    ensures BeatsLeft(all, s) >= 0
  {
    SomeNumber(all, cfg, s);
    LayoutNotEmpty(all, EffBeat(s), EffPair(s), LayoutOf(s));
  }

  lemma WorkStarts(o: LineState, line: FL.Line, cfg: Config, id: nat)
    requires LineFits(o, line) && Idle(line) && o.phase == RobotWork
    requires o.occupancy != map[] || o.inQueue != []
    ensures RobotWorkPhase(o, FL.Sense(line, |o.inQueue|), cfg, id).state.phase != RobotWork
  {
  }

  lemma WorkProgress(all: seq<PartId>, cfg: Config, o: LineState, line: FL.Line, id: nat)
    requires Dispatchable(all, cfg, o, line) && o.phase == RobotWork && o.parts != map[]
    ensures RankFalls(all, o, RobotWorkPhase(o, FL.Sense(line, |o.inQueue|), cfg, id).state)
  {
    LineNotEmpty(all, cfg, o);
    WorkStarts(o, line, cfg, id);
    WorkReady(all, cfg, o, line, id);
  }

  /** What a held train leaves behind: nothing changed, and a flash owed. */
  predicate Held(cfg: Config, o: LineState, r: StepResult) {
    r.state == o && r.intents == [] && Waiting(o) && FanOwes(cfg, o)
  }

  lemma WaitProgress(all: seq<PartId>, cfg: Config, o: LineState, line: FL.Line, id: nat)
    requires Dispatchable(all, cfg, o, line) && Waiting(o)
    ensures
      var r := Dispatch(o, FL.Sense(line, |o.inQueue|), cfg, id);
      RankFalls(all, o, r.state) || Held(cfg, o, r)
  {
    IdleWork(line);
    var sensors := FL.Sense(line, |o.inQueue|);
    if DepartureBlocked(o, sensors, cfg, LiveMoves(o)).Some? {
      var m := HeldIsFlash(all, cfg, o, line);
      UnderFlashedAtFan(all, cfg, o, m);
    }
    if o.phase == Moving {
      StartProgress(all, cfg, o, line, id);
    }
  }

  lemma StartProgress(all: seq<PartId>, cfg: Config, o: LineState, line: FL.Line, id: nat)
    requires LineFits(o, line) && Idle(line) && o.phase == Moving && o.inFlight == []
    ensures
      var sensors := FL.Sense(line, |o.inQueue|);
      var r := MovingPhase(o, sensors, cfg, id);
      || RankFalls(all, o, r.state)
      || (r.state == o && r.intents == [] && DepartureBlocked(o, sensors, cfg, LiveMoves(o)).Some?)
  {
    IdleWork(line);
  }

  lemma DispatchProgress(all: seq<PartId>, cfg: Config, o: LineState, line: FL.Line, id: nat)
    requires Dispatchable(all, cfg, o, line) && o.parts != map[]
    ensures
      var r := Dispatch(o, FL.Sense(line, |o.inQueue|), cfg, id);
      RankFalls(all, o, r.state) || Held(cfg, o, r)
  {
    if Waiting(o) {
      WaitProgress(all, cfg, o, line, id);
    } else if o.phase == RobotWork {
      WorkProgress(all, cfg, o, line, id);
    } else if o.phase == Moving {
      LandProgress(all, cfg, o, line, id);
    } else {
      TransitionProgress(all, cfg, o, line, id);
    }
  }

  lemma LandProgress(all: seq<PartId>, cfg: Config, o: LineState, line: FL.Line, id: nat)
    requires Dispatchable(all, cfg, o, line) && o.phase == Moving && o.inFlight != []
    ensures RankFalls(all, o, MovingPhase(o, FL.Sense(line, |o.inQueue|), cfg, id).state)
  {
    DispatchLaunches(all, cfg, o, line, id);
  }

  lemma TransitionProgress(all: seq<PartId>, cfg: Config, o: LineState, line: FL.Line, id: nat)
    requires Dispatchable(all, cfg, o, line)
    requires o.phase != RobotWork && o.phase != Moving && !Waiting(o)
    ensures RankFalls(all, o, Dispatch(o, FL.Sense(line, |o.inQueue|), cfg, id).state)
  {
  }

  // ----------------------------------------------------------------- progress

  lemma HeldFalls(all: seq<PartId>, cfg: Config, dt: real, c: Cell)
    requires InSync(all, cfg, c) && dt > 0.0 && Moved(cfg, dt, c).Work() == []
    requires Waiting(Seen(cfg, dt, c)) && FanOwes(cfg, Seen(cfg, dt, c))
    requires Tick(cfg, dt, c) == Cell(Seen(cfg, dt, c), Moved(cfg, dt, c).(queue := []), c.nextId)
    ensures Falls(all, cfg, dt, c, Tick(cfg, dt, c))
  {
    IdleWork(Moved(cfg, dt, c));
    if c.line.Work() == [] {
      IdleLineStands(all, cfg, dt, c);
      OwedFalls(all, cfg, dt, c);
    }
  }

  lemma RankFallsSuffices(all: seq<PartId>, cfg: Config, dt: real, c: Cell, o: LineState, t: Cell)
    requires dt > 0.0 && RankFalls(all, o, t.state)
    requires o.beat == c.state.beat && o.pairIndex == c.state.pairIndex
    requires o.phase == c.state.phase && o.inFlight == c.state.inFlight
    ensures Falls(all, cfg, dt, c, t)
  {
  }

  lemma IdleFalls(all: seq<PartId>, cfg: Config, dt: real, c: Cell, r: StepResult)
    requires InSync(all, cfg, c) && dt > 0.0 && Moved(cfg, dt, c).Work() == []
    requires Tick(cfg, dt, c) == Cell(r.state, Moved(cfg, dt, c).(queue := r.intents), r.nextId)
    requires r.nextId == c.nextId || r.intents != []
    requires RankFalls(all, Seen(cfg, dt, c), r.state) || Held(cfg, Seen(cfg, dt, c), r)
    ensures Falls(all, cfg, dt, c, Tick(cfg, dt, c))
  {
    if RankFalls(all, Seen(cfg, dt, c), r.state) {
      RankFallsSuffices(all, cfg, dt, c, Seen(cfg, dt, c), Tick(cfg, dt, c));
    } else {
      HeldFalls(all, cfg, dt, c);
    }
  }

  lemma DispatchIds(s: LineState, sensors: Sensors, cfg: Config, id: nat)
    requires s.phase != Faulted
    ensures Dispatch(s, sensors, cfg, id).nextId == id + |Dispatch(s, sensors, cfg, id).intents|
  {
  }

  /** Every tick with a part still on record makes progress. */
  lemma TickFalls(all: seq<PartId>, cfg: Config, dt: real, c: Cell)
    requires InSync(all, cfg, c) && dt > 0.0 && c.state.parts != map[]
    ensures Falls(all, cfg, dt, c, Tick(cfg, dt, c))
  {
    if Moved(cfg, dt, c).Work() != [] {
      WorkingFalls(all, cfg, dt, c);
    } else {
      TickCases(all, cfg, dt, c);
      SeenParts(all, cfg, dt, c);
      var o, line := Seen(cfg, dt, c), Moved(cfg, dt, c);
      DispatchProgress(all, cfg, o, line, c.nextId);
      DispatchIds(o, FL.Sense(line, |o.inQueue|), cfg, c.nextId);
      IdleFalls(all, cfg, dt, c, Dispatch(o, FL.Sense(line, |o.inQueue|), cfg, c.nextId));
    }
  }

  lemma SeenParts(all: seq<PartId>, cfg: Config, dt: real, c: Cell)
    requires InSync(all, cfg, c)
    ensures Seen(cfg, dt, c).parts.Keys == c.state.parts.Keys
  {
    KeyedParts(all, cfg, c.state);
    AdvanceFlashPointwise(SensedState(c.state, Moved(cfg, dt, c)), dt, cfg);
  }

  // ---------------------------------------------------------------- the drain

  lemma LoopTail(cfg: Config, dt: real, cells: seq<Cell>)
    requires IsLoop(cfg, dt, cells) && |cells| > 1
    ensures IsLoop(cfg, dt, cells[1..])
  {
    forall k | 0 <= k < |cells[1..]| - 1 ensures Follows(cfg, dt, cells[1..], k) {
      assert Follows(cfg, dt, cells, k + 1);
    }
  }

  /** After `n` more turns from `c`, however the run goes on, no part is left. */
  ghost predicate EmptyBy(cfg: Config, dt: real, c: Cell, n: nat) {
    forall cells: seq<Cell> :: IsLoop(cfg, dt, cells) && cells[0] == c && |cells| > n ==> cells[n].state.parts == map[]
  }

  lemma OneTurnMore(cfg: Config, dt: real, c: Cell, n: nat)
    requires EmptyBy(cfg, dt, Tick(cfg, dt, c), n)
    ensures EmptyBy(cfg, dt, c, n + 1)
  {
    forall cells: seq<Cell> | IsLoop(cfg, dt, cells) && cells[0] == c && |cells| > n + 1
      ensures cells[n + 1].state.parts == map[]
    {
      assert Follows(cfg, dt, cells, 0);
      LoopTail(cfg, dt, cells);
      assert cells[1..][0] == cells[1] && cells[1..][n] == cells[n + 1];
    }
  }

  /** From any state the loop can be in, finitely many ticks empty the line. */
  lemma {:induction false} Drains(all: seq<PartId>, cfg: Config, dt: real, c: Cell) returns (n: nat)
    requires InSync(all, cfg, c) && dt > 0.0
    ensures EmptyBy(cfg, dt, c, n)
    decreases BeatsLeft(all, c.state), Rank(c.state), |c.line.Work()|, Clock(cfg, dt, c.line), Owed(cfg, dt, c.state)
  {
    if c.state.parts == map[] {
      n := 0;
    } else {
      LineNotEmpty(all, cfg, c.state);
      TickFalls(all, cfg, dt, c);
      TickKeeps(all, cfg, dt, c);
      n := Drains(all, cfg, dt, Tick(cfg, dt, c));
      OneTurnMore(cfg, dt, c, n);
      n := n + 1;
    }
  }

  // ---------------------------------------------------------- order and count

  lemma TickKeepsOrder(all: seq<PartId>, cfg: Config, dt: real, c: Cell)
    requires InSync(all, cfg, c) && dt > 0.0
    ensures Runs.HeadLeaves(LayoutOf(c.state), LayoutOf(Tick(cfg, dt, c).state))
  {
    var e := TickEvent(cfg, dt, c);
    Runs.EventKeepsOrder(all, cfg, c.state, e);
    assert LayoutOf(Runs.React(cfg, c.state, e).state) == LayoutOf(Tick(cfg, dt, c).state);
  }

  /** A turn of the loop as an event of the open-world runs. */
  function TickEvent(cfg: Config, dt: real, c: Cell): Runs.Event {
    var (line, done) := FL.Advance(cfg, c.line, dt);
    Runs.Tick(SensedState(c.state, line).f1Fan, line.f2Fan, LoopInputs(c.state, line, done, dt), c.nextId)
  }

  function States(cells: seq<Cell>): seq<LineState> {
    seq(|cells|, k requires 0 <= k < |cells| => cells[k].state)
  }

  lemma LoopStepOrder(all: seq<PartId>, cfg: Config, dt: real, cells: seq<Cell>, k: nat)
    requires IsLoop(cfg, dt, cells) && k < |cells| - 1 && Start(all, cells[0]) && dt > 0.0
    ensures Runs.OrderedStep(States(cells), k)
  {
    AlwaysInSync(all, cfg, dt, cells, k);
    TickKeepsOrder(all, cfg, dt, cells[k]);
    assert Follows(cfg, dt, cells, k);
  }

  lemma LoopOrder(all: seq<PartId>, cfg: Config, dt: real, cells: seq<Cell>)
    requires IsLoop(cfg, dt, cells) && Start(all, cells[0]) && dt > 0.0
    ensures forall k :: 0 <= k < |cells| - 1 ==> Runs.OrderedStep(States(cells), k)
  {
    forall k | 0 <= k < |cells| - 1 ensures Runs.OrderedStep(States(cells), k) {
      LoopStepOrder(all, cfg, dt, cells, k);
    }
  }

  lemma OrderOf(all: seq<PartId>, states: seq<LineState>, n: nat)
    requires n < |states| && Declared(all, states[0])
    requires forall k :: 0 <= k < n ==> Runs.OrderedStep(states, k)
    ensures Runs.Outfed(states, n) + Runs.LineOrder(LayoutOf(states[n])) == all
  {
    Runs.OutfedThenLine(states, n);
    Runs.DeclaredOrder(all, states[0]);
  }

  lemma {:induction false} PartsOnlyLeave(states: seq<LineState>, i: nat, k: nat)
    requires i <= k < |states|
    requires forall j :: 0 <= j < k ==> Runs.OrderedStep(states, j)
    ensures states[k].parts.Keys <= states[i].parts.Keys
    decreases k - i
  {
    if i < k {
      PartsOnlyLeave(states, i, k - 1);
      assert Runs.OrderedStep(states, k - 1);
      OnlyHeadLeaves(states[k - 1], states[k]);
    }
  }

  lemma OnlyHeadLeaves(s: LineState, t: LineState)
    requires Runs.HeadLeaves(LayoutOf(s), LayoutOf(t))
    ensures t.parts.Keys <= s.parts.Keys
  {
    assert LayoutOf(s).parts == s.parts && LayoutOf(t).parts == t.parts;
  }

  /** A scheduled line without part records is empty. */
  lemma NoPartsNoLine(all: seq<PartId>, cfg: Config, s: LineState)
    requires OnSchedule(all, cfg, s) && s.parts == map[]
    ensures Runs.LineOrder(LayoutOf(s)) == []
  {
    Runs.OrderIsSuffix(all, EffBeat(s), EffPair(s), LayoutOf(s));
    NoneLeft(all, cfg, EffBeat(s), EffPair(s), WorkDone(s), s.parts);
  }

  lemma NoneLeft(all: seq<PartId>, cfg: Config, b: Beat, j: int, done: bool, parts: map<PartId, PartState>)
    requires PartsFit(all, cfg, b, j, done, parts) && parts == map[]
    ensures Clamp(LowNumber(b, j), |all|) == |all|
  {
    assert forall i :: 0 <= i < |all| && LowNumber(b, j) <= i ==> all[i] in parts;
    if all != [] {
      var last := all[|all| - 1];
      assert LowNumber(b, j) <= |all| - 1 ==> last in parts;
    }
  }

  /** The closed loop drains: for every batch, flash time, tick and durations,
      finitely many ticks later every part has left, in the order it was declared;
      longer runs add nothing, and no run ever latches a fault. */
  lemma ClosedLoopDrains(all: seq<PartId>, cfg: Config, dt: real, c: Cell) returns (n: nat)
    requires Start(all, c) && dt > 0.0
    ensures forall cells: seq<Cell> :: IsLoop(cfg, dt, cells) && cells[0] == c && |cells| > n ==>
      Runs.Outfed(States(cells), |cells| - 1) == all && cells[|cells| - 1].state.parts == map[]
    ensures forall cells: seq<Cell>, k: nat :: IsLoop(cfg, dt, cells) && cells[0] == c && k < |cells| ==>
      cells[k].state.fault.None?
  {
    StartInSync(all, cfg, c);
    n := Drains(all, cfg, dt, c);
    forall cells: seq<Cell> | IsLoop(cfg, dt, cells) && cells[0] == c && |cells| > n
      ensures Runs.Outfed(States(cells), |cells| - 1) == all && cells[|cells| - 1].state.parts == map[]
    {
      DrainedParts(all, cfg, dt, cells, n);
      DrainedOrder(all, cfg, dt, cells);
    }
    forall cells: seq<Cell>, k: nat | IsLoop(cfg, dt, cells) && cells[0] == c && k < |cells|
      ensures cells[k].state.fault.None?
    {
      NeverFaults(all, cfg, dt, cells, k);
    }
  }

  lemma NeverFaults(all: seq<PartId>, cfg: Config, dt: real, cells: seq<Cell>, k: nat)
    requires IsLoop(cfg, dt, cells) && Start(all, cells[0]) && dt > 0.0 && k < |cells|
    ensures cells[k].state.fault.None?
  {
    AlwaysInSync(all, cfg, dt, cells, k);
  }

  lemma DrainedParts(all: seq<PartId>, cfg: Config, dt: real, cells: seq<Cell>, n: nat)
    requires IsLoop(cfg, dt, cells) && Start(all, cells[0]) && dt > 0.0
    requires n < |cells| && cells[n].state.parts == map[]
    ensures cells[|cells| - 1].state.parts == map[]
  {
    LoopOrder(all, cfg, dt, cells);
    PartsOnlyLeave(States(cells), n, |cells| - 1);
  }

  lemma DrainedLine(all: seq<PartId>, cfg: Config, dt: real, cells: seq<Cell>, k: nat)
    requires IsLoop(cfg, dt, cells) && Start(all, cells[0]) && dt > 0.0
    requires k < |cells| && cells[k].state.parts == map[]
    ensures Runs.LineOrder(LayoutOf(cells[k].state)) == []
  {
    AlwaysInSync(all, cfg, dt, cells, k);
    NoPartsNoLine(all, cfg, cells[k].state);
  }

  lemma DrainedOrder(all: seq<PartId>, cfg: Config, dt: real, cells: seq<Cell>)
    requires IsLoop(cfg, dt, cells) && Start(all, cells[0]) && dt > 0.0
    requires cells[|cells| - 1].state.parts == map[]
    ensures Runs.Outfed(States(cells), |cells| - 1) == all
  {
    var m := |cells| - 1;
    LoopOrder(all, cfg, dt, cells);
    DrainedLine(all, cfg, dt, cells, m);
    OrderOf(all, States(cells), m);
  }

  // ------------------------------------------------------ the simulator's loop

  datatype SimResult = SimResult(state: LineState, elapsed: real, outfeed: nat, steps: nat)

  /** One pass of the simulator's loop body over the line it updates in place. */
  method Turn(state: LineState, line: FL.LineSimulator, id: nat, dt: real) returns (next: LineState, nextId: nat)
    modifies line
    ensures Cell(next, line.Value(), nextId) == Tick(line.cfg, dt, Cell(state, old(line.Value()), id))
  {
    var completed := line.Elapse(dt);
    var seen := state.(f1Fan := if line.gunOn then false else line.f1Fan, f2Fan := line.f2Fan);
    var r := Step(seen, Inputs(dt, FL.Sense(line.Value(), |state.inQueue|), completed, None), line.cfg, id);
    line.Submit(r.intents);
    next, nextId := r.state, r.nextId;
  }

  /** Parts that have left a batch of which `s` is what remains. */
  function Outfeed(all: seq<PartId>, s: LineState): int {
    |all| - |Runs.LineOrder(LayoutOf(s))|
  }

  /** What one turn adds to the count: the parts on record before it and not after. */
  method CountGone(ghost all: seq<PartId>, seen: set<PartId>, ghost s: LineState, t: LineState)
    returns (gone: nat, left: set<PartId>)
    requires seen == s.parts.Keys && Runs.HeadLeaves(LayoutOf(s), LayoutOf(t))
    ensures Outfeed(all, t) == Outfeed(all, s) + gone && left == t.parts.Keys
  {
    assert LayoutOf(s).parts == s.parts && LayoutOf(t).parts == t.parts;
    var parted := seen - t.parts.Keys;
    gone, left := |parted|, seen - parted;
    assert s.parts.Keys == t.parts.Keys ==> parted == {};
  }

  function Seconds(k: nat, dt: real): real {
    if k == 0 then 0.0 else Seconds(k - 1, dt) + dt
  }

  function TicksLeft(seconds: real, dt: real): nat
    requires dt > 0.0
  {
    if seconds <= 0.0 then 0 else Ticks(seconds, dt) + 1
  }

  lemma TicksLeftFalls(seconds: real, dt: real)
    requires dt > 0.0 && seconds > 0.0
    ensures TicksLeft(seconds - dt, dt) < TicksLeft(seconds, dt)
  {
    if seconds >= dt {
      OneTickLess(seconds, dt);
    }
  }

  /** Neither the time nor the target is used up at turn k. */
  predicate Unfinished(all: seq<PartId>, cells: seq<Cell>, k: nat, dt: real, maxSeconds: real, untilOutfeed: int)
    requires k < |cells|
  {
    Seconds(k, dt) < maxSeconds && Outfeed(all, cells[k].state) < untilOutfeed
  }

  /** The loop that was run never went past its stopping point. */
  ghost predicate Recorded(all: seq<PartId>, cfg: Config, dt: real, cells: seq<Cell>, maxSeconds: real, untilOutfeed: int) {
    && IsLoop(cfg, dt, cells)
    && forall k: nat {:trigger cells[k]} :: k < |cells| - 1 ==> Unfinished(all, cells, k, dt, maxSeconds, untilOutfeed)
  }

  lemma RecordExtends(
    all: seq<PartId>, cfg: Config, dt: real, cells: seq<Cell>, next: Cell, maxSeconds: real, untilOutfeed: int)
    requires Recorded(all, cfg, dt, cells, maxSeconds, untilOutfeed) && IsLoop(cfg, dt, cells + [next])
    requires Unfinished(all, cells, |cells| - 1, dt, maxSeconds, untilOutfeed)
    ensures Recorded(all, cfg, dt, cells + [next], maxSeconds, untilOutfeed)
  {
    forall k: nat | k < |cells| ensures Unfinished(all, cells + [next], k, dt, maxSeconds, untilOutfeed) {
      assert (cells + [next])[k] == cells[k];
    }
  }

  /** A pass that continues a recorded loop, its departures counted. */
  method CountedTurn(ghost all: seq<PartId>, ghost cells: seq<Cell>, state: LineState, line: FL.LineSimulator, id: nat,
                     dt: real, seen: set<PartId>)
    returns (next: LineState, nextId: nat, gone: nat, left: set<PartId>)
    requires IsLoop(line.cfg, dt, cells) && cells[|cells| - 1] == Cell(state, line.Value(), id)
    requires Start(all, cells[0]) && dt > 0.0 && seen == state.parts.Keys
    modifies line
    ensures IsLoop(line.cfg, dt, cells + [Cell(next, line.Value(), nextId)])
    ensures Outfeed(all, next) == Outfeed(all, state) + gone
    ensures left == next.parts.Keys
  {
    AlwaysInSync(all, line.cfg, dt, cells, |cells| - 1);
    TickKeepsOrder(all, line.cfg, dt, cells[|cells| - 1]);
    next, nextId := Turn(state, line, id, dt);
    LoopExtends(line.cfg, dt, cells, Cell(next, line.Value(), nextId));
    gone, left := CountGone(all, seen, state, next);
  }

  /** The simulator's loop, over the line it updates in place: it stops at the
      first turn that meets the target or exhausts the time, and never faults. */
  method Run(ghost all: seq<PartId>, start: LineState, line: FL.LineSimulator, firstId: nat,
             untilOutfeed: int, dt: real, maxSeconds: real)
    returns (result: SimResult, ghost cells: seq<Cell>)
    requires dt > 0.0
    requires Start(all, Cell(start, line.Value(), firstId))
    modifies line
    ensures Recorded(all, line.cfg, dt, cells, maxSeconds, untilOutfeed) && |cells| == result.steps + 1
    ensures cells[0] == Cell(start, old(line.Value()), firstId)
    ensures result.state == cells[result.steps].state && line.Value() == cells[result.steps].line
    ensures result.elapsed == Seconds(result.steps, dt) && result.outfeed == Outfeed(all, result.state)
    ensures result.elapsed >= maxSeconds || result.outfeed >= untilOutfeed
    ensures result.state.fault.None?
  {
    cells := [Cell(start, line.Value(), firstId)];
    var state, nextId := start, firstId;
    var elapsed, seen := 0.0, start.parts.Keys;
    var steps: nat, outfeed: nat := 0, 0;
    Runs.DeclaredOrder(all, start);
    while elapsed < maxSeconds && outfeed < untilOutfeed
      invariant Recorded(all, line.cfg, dt, cells, maxSeconds, untilOutfeed) && |cells| == steps + 1
      invariant cells[0] == Cell(start, old(line.Value()), firstId)
      invariant cells[steps] == Cell(state, line.Value(), nextId)
      invariant elapsed == Seconds(steps, dt) && outfeed == Outfeed(all, state)
      invariant seen == state.parts.Keys
      decreases TicksLeft(maxSeconds - elapsed, dt)
    {
      ghost var before := cells;
      var gone;
      state, nextId, gone, seen := CountedTurn(all, cells, state, line, nextId, dt, seen);
      cells := cells + [Cell(state, line.Value(), nextId)];
      RecordExtends(all, line.cfg, dt, before, cells[steps + 1], maxSeconds, untilOutfeed);
      TicksLeftFalls(maxSeconds - elapsed, dt);
      outfeed, elapsed, steps := outfeed + gone, elapsed + dt, steps + 1;
    }
    NeverFaults(all, line.cfg, dt, cells, steps);
    result := SimResult(state, elapsed, outfeed, steps);
  }

  /** Given enough turns the whole batch is out, so the simulator can only stop
      short of a target within the batch by running out of time. */
  lemma TargetIsReached(all: seq<PartId>, cfg: Config, dt: real, c: Cell) returns (n: nat)
    requires Start(all, c) && dt > 0.0
    ensures forall cells: seq<Cell>, maxSeconds: real, untilOutfeed: int ::
      Recorded(all, cfg, dt, cells, maxSeconds, untilOutfeed) && cells[0] == c && untilOutfeed <= |all| ==> |cells| <= n + 1
  {
    StartInSync(all, cfg, c);
    n := Drains(all, cfg, dt, c);
    forall cells: seq<Cell>, maxSeconds: real, untilOutfeed: int |
      Recorded(all, cfg, dt, cells, maxSeconds, untilOutfeed) && cells[0] == c && untilOutfeed <= |all|
      ensures |cells| <= n + 1
    {
      if |cells| > n {
        DrainedLine(all, cfg, dt, cells, n);
      }
    }
  }
}

/** The simulated line: intents run one at a time, in submission order, for
    nominal durations, against a line that tracks its own occupancy. */
module FakeLine {
  import opened Model

  /** The line at one instant. */
  datatype Line = Line(
    occupied: set<Station>,
    shutter: Shutter,
    f1Fan: bool,
    f2Fan: bool,
    robotClear: bool,
    gunOn: bool,
    queue: seq<Intent>,
    current: Option<Intent>,
    remaining: real)
  {
    /** Everything submitted and not yet finished, in execution order. */
    function Work(): seq<Intent> {
      (if current.Some? then [current.value] else []) + queue
    }
  }

  const IdleLine := Line({}, Closed, false, false, true, false, [], None, 0.0)

  function Duration(cfg: Config, intent: Intent): real {
    match intent
    case SandPart(id, part) => cfg.coat1Seconds - 30.0
    case CleanGun(id, part) => cfg.cleanGunSeconds
    case SprayPart(id, part, coat) => 30.0
    case AdvanceTrain(id, direction, moves) => cfg.transferSeconds
    case SetShutter(id, target) => 1.0
    case MoveToSafePose(id) => 3.0
    case SetFan(id, station, on) => 0.0
    case HaltZones(id, reason) => 0.0
  }

  function Begun(line: Line, intent: Intent): Line {
    match intent
    case SprayPart(id, part, coat) => line.(gunOn := true, robotClear := false)
    case SandPart(id, part) => line.(robotClear := false)
    case CleanGun(id, part) => line.(robotClear := false)
    case SetShutter(id, target) => line.(shutter := Travelling)
    case _ => line
  }

  function Carried(occupied: set<Station>, moves: seq<Move>): set<Station>
    decreases |moves|
  {
    if moves == [] then occupied
    else
      var vacated := occupied - {moves[0].src};
      Carried(if moves[0].dst == OUT then vacated else vacated + {moves[0].dst}, moves[1..])
  }

  function Finished(line: Line, intent: Intent): Line {
    match intent
    case SprayPart(id, part, coat) => line.(gunOn := false)
    case MoveToSafePose(id) => line.(robotClear := true)
    case SetShutter(id, target) => line.(shutter := target)
    case SetFan(id, station, on) => if station == F1 then line.(f1Fan := on) else line.(f2Fan := on)
    case AdvanceTrain(id, direction, moves) => line.(occupied := Carried(line.occupied, moves))
    case _ => line
  }

  /** Take the next intent off the queue and start it. */
  function Started(cfg: Config, line: Line): Line
    requires line.current.None? && line.queue != []
  {
    var next := line.queue[0];
    Begun(line.(current := Some(next), queue := line.queue[1..], remaining := Duration(cfg, next)), next)
  }

  /** Complete the current intent. */
  function Completed(line: Line): Line
    requires line.current.Some?
  {
    Finished(line, line.current.value).(current := None, remaining := 0.0)
  }

  /** No more can happen inside `budget` seconds: nothing left, or not enough time. */
  predicate Halts(line: Line, budget: real) {
    if line.current.None? then line.queue == [] else line.remaining > budget
  }

  /** The next change of the line, and the time left after it. */
  function Change(cfg: Config, line: Line, budget: real): (Line, real)
    requires !Halts(line, budget)
  {
    if line.current.None? then (Started(cfg, line), budget) else (Completed(line), budget - line.remaining)
  }

  function Elapsed(line: Line, budget: real): Line {
    if line.current.None? then line else line.(remaining := line.remaining - budget)
  }

  predicate EntersEnvelope(i: Intent) { i.SprayPart? || i.SandPart? || i.CleanGun? }

  /** What starting the next intent shows: the gun live for a spray, the robot no longer
      clear for any work, the shutter travelling, and nothing of fans and parts. */
  lemma StartShows(cfg: Config, line: Line)
    requires line.current.None? && line.queue != []
    ensures
      var i, next := line.queue[0], Started(cfg, line);
      && next.current == Some(i) && next.queue == line.queue[1..]
      && (next.gunOn <==> line.gunOn || i.SprayPart?) && (next.robotClear <==> line.robotClear && !EntersEnvelope(i))
      && next.shutter == (if i.SetShutter? then Travelling else line.shutter)
      && next.f1Fan == line.f1Fan && next.f2Fan == line.f2Fan && next.occupied == line.occupied
  {
  }

  /** What completing it shows: the gun off behind a spray, the robot clear only behind a
      retreat, the shutter where it was sent, the fan as set, the train's parts moved. */
  lemma FinishShows(line: Line)
    requires line.current.Some?
    ensures
      var i, next := line.current.value, Completed(line);
      && next.current == None && next.queue == line.queue && next.remaining == 0.0
      && (next.gunOn <==> line.gunOn && !i.SprayPart?) && (next.robotClear <==> line.robotClear || i.MoveToSafePose?)
      && next.shutter == (if i.SetShutter? then i.target else line.shutter)
      && next.f1Fan == (if i.SetFan? && i.station == F1 then i.on else line.f1Fan)
      && next.f2Fan == (if i.SetFan? && i.station != F1 then i.on else line.f2Fan)
      && next.occupied == (if i.AdvanceTrain? then Carried(line.occupied, i.moves) else line.occupied)
  {
  }

  /** Work takes its configured time: sanding and spraying together the first coat's. */
  lemma WorkTakes(cfg: Config, pid: PartId, coat: nat, moves: seq<Move>, d: Direction)
    ensures Duration(cfg, SandPart(0, pid)) + Duration(cfg, SprayPart(0, pid, coat)) == cfg.coat1Seconds
    ensures Duration(cfg, AdvanceTrain(0, d, moves)) == cfg.transferSeconds && Duration(cfg, CleanGun(0, pid)) == cfg.cleanGunSeconds
    ensures forall st, on :: Duration(cfg, SetFan(0, st, on)) == 0.0
    ensures forall target :: Duration(cfg, SetShutter(0, target)) > 0.0
    ensures Duration(cfg, MoveToSafePose(0)) > 0.0
  {
  }

  /** `budget` seconds of line time: the line afterwards and the ids completed. */
  function Advance(cfg: Config, line: Line, budget: real): (Line, set<nat>)
    decreases |line.queue|, line.current.Some?
  {
    if Halts(line, budget) then (Elapsed(line, budget), {})
    else
      var (next, left) := Change(cfg, line, budget);
      var (after, done) := Advance(cfg, next, left);
      (after, if line.current.Some? then {line.current.value.id} + done else done)
  }

  /** What is left to do leads where the whole elapse leads. */
  predicate Leads(cfg: Config, line: Line, budget: real, done: set<nat>, goal: (Line, set<nat>)) {
    Advance(cfg, line, budget).0 == goal.0 && done + Advance(cfg, line, budget).1 == goal.1
  }

  lemma LeadsOn(cfg: Config, line: Line, budget: real, done: set<nat>, goal: (Line, set<nat>))
    requires Leads(cfg, line, budget, done, goal) && !Halts(line, budget)
    ensures
      var (next, left) := Change(cfg, line, budget);
      Leads(cfg, next, left, done + (if line.current.Some? then {line.current.value.id} else {}), goal)
  {
    var (next, left) := Change(cfg, line, budget);
    var finished := if line.current.Some? then {line.current.value.id} else {};
    assert Advance(cfg, line, budget).1 == finished + Advance(cfg, next, left).1;
    assert done + (finished + Advance(cfg, next, left).1) == (done + finished) + Advance(cfg, next, left).1;
  }

  lemma LeadsHome(cfg: Config, line: Line, budget: real, done: set<nat>, goal: (Line, set<nat>))
    requires Leads(cfg, line, budget, done, goal) && Halts(line, budget)
    ensures (Elapsed(line, budget), done) == goal
  {
    assert done + Advance(cfg, line, budget).1 == done;
  }

  lemma LeadsFrom(cfg: Config, line: Line, budget: real)
    ensures Leads(cfg, line, budget, {}, Advance(cfg, line, budget))
  {
  }

  function Sense(line: Line, inCount: nat): Sensors {
    Sensors(line.occupied, line.shutter, line.f1Fan, line.f2Fan, line.robotClear, line.gunOn, inCount > 0, false)
  }

  /** The sensors see the line as it is; the queue's eye sees a part while one waits, and
      the outfeed is always clear. */
  lemma SenseShows(line: Line, inCount: nat)
    ensures
      var s := Sense(line, inCount);
      && s.occupied == line.occupied && s.shutter == line.shutter && s.f1Fan == line.f1Fan && s.f2Fan == line.f2Fan
      && s.robotClear == line.robotClear && s.gunOn == line.gunOn && (s.inEye <==> inCount > 0) && !s.outEye
  {
  }

  /** The line as the simulator holds it: one object updated in place. */
  class LineSimulator {
    const cfg: Config
    var occupied: set<Station>
    var shutter: Shutter
    var f1Fan: bool
    var f2Fan: bool
    var robotClear: bool
    var gunOn: bool
    var queue: seq<Intent>
    var current: Option<Intent>
    var remaining: real

    function Value(): Line
      reads this
    {
      Line(occupied, shutter, f1Fan, f2Fan, robotClear, gunOn, queue, current, remaining)
    }

    constructor (cfg: Config)
      ensures this.cfg == cfg && Value() == IdleLine
    {
      this.cfg := cfg;
      occupied, shutter := {}, Closed;
      f1Fan, f2Fan, robotClear, gunOn := false, false, true, false;
      queue, current, remaining := [], None, 0.0;
    }

    method Submit(intents: seq<Intent>)
      modifies this
      ensures Value() == old(Value()).(queue := old(queue) + intents)
    {
      queue := queue + intents;
    }

    method Begin(intent: Intent)
      modifies this
      ensures Value() == Begun(old(Value()), intent)
    {
      match intent {
        case SprayPart(id, part, coat) => gunOn, robotClear := true, false;
        case SandPart(id, part) => robotClear := false;
        case CleanGun(id, part) => robotClear := false;
        case SetShutter(id, target) => shutter := Travelling;
        case _ =>
      }
    }

    method Finish(intent: Intent)
      modifies this
      ensures Value() == Finished(old(Value()), intent)
    {
      match intent {
        case SprayPart(id, part, coat) => gunOn := false;
        case MoveToSafePose(id) => robotClear := true;
        case SetShutter(id, target) => shutter := target;
        case SetFan(id, station, on) =>
          if station == F1 { f1Fan := on; } else { f2Fan := on; }
        case AdvanceTrain(id, direction, moves) =>
          for i := 0 to |moves|
            invariant Carried(old(occupied), moves) == Carried(occupied, moves[i..])
            invariant Value() == old(Value()).(occupied := occupied)
          {
            assert moves[i..][0] == moves[i] && moves[i..][1..] == moves[i + 1..];
            occupied := occupied - {moves[i].src};
            if moves[i].dst != OUT {
              occupied := occupied + {moves[i].dst};
            }
          }
        case _ =>
      }
    }

    method StartNext()
      requires current.None? && queue != []
      modifies this
      ensures Value() == Started(cfg, old(Value()))
    {
      var next := queue[0];
      current, queue, remaining := Some(next), queue[1..], Duration(cfg, next);
      Begin(next);
    }

    method FinishCurrent()
      requires current.Some?
      modifies this
      ensures Value() == Completed(old(Value()))
    {
      Finish(current.value);
      current, remaining := None, 0.0;
    }

    /** Start the next intent, or finish the one that fits in the time left. */
    method OneChange(budget: real) returns (left: real, done: set<nat>)
      requires !Halts(Value(), budget)
      modifies this
      ensures (Value(), left) == Change(cfg, old(Value()), budget)
      ensures done == if old(current).Some? then {old(current).value.id} else {}
    {
      if current.None? {
        StartNext();
        left, done := budget, {};
      } else {
        left, done := budget - remaining, {current.value.id};
        FinishCurrent();
      }
    }

    /** Several short intents can finish inside one tick while a long one spans many. */
    method Elapse(dt: real) returns (done: set<nat>)
      modifies this
      ensures (Value(), done) == Advance(cfg, old(Value()), dt)
    {
      done := {};
      var budget := dt;
      ghost var goal := Advance(cfg, Value(), dt);
      LeadsFrom(cfg, Value(), dt);
      while if current.None? then queue != [] else remaining <= budget
        invariant Leads(cfg, Value(), budget, done, goal)
        decreases |queue|, current.Some?
      {
        LeadsOn(cfg, Value(), budget, done, goal);
        var finished;
        budget, finished := OneChange(budget);
        done := done + finished;
      }
      LeadsHome(cfg, Value(), budget, done, goal);
      if current.Some? {
        remaining := remaining - budget;
      }
    }
  }
}

/** Controller and executor together. The controller numbers its intents from one
    counter; the executor reports numbers back, some of them long after the fault and
    the recovery that made them stale. */
module Handshake {
  import opened Model
  import opened Schedule
  import opened Machine
  import Runs
  import Rules = StepRules
  import E = Executor

  /** The controller, its counter, what it has emitted and not yet handed over, every
      id it has emitted, the executor, and the completions collected for the next tick. */
  datatype Joint = Joint(
    line: LineState,
    nextId: nat,
    outbox: seq<Intent>,
    log: set<nat>,
    exec: E.State,
    inbox: set<nat>)

  datatype Turn =
    | Collect
    | TickNow(f1: bool, f2: bool, dt: real, sensors: Sensors, fault: Option<Reason>)
    | PauseNow(f1: bool, f2: bool, dt: real)
    | AckNow(sensors: Sensors, confirmed: Option<map<Station, PartId>>, beat: Option<Beat>)
    | Submit
    | Work(step: E.Step)

  /** What only the controller does to the executor. */
  predicate IsControllers(step: E.Step) {
    step.Put? || step.BeginHalt? || step.TakeDone?
  }

  predicate Enabled(j: Joint, a: Turn) {
    match a
    case Submit => j.outbox != []
    case Work(step) => !IsControllers(step) && E.Enabled(j.exec, step)
    case _ => true
  }

  /** A halt never queues. */
  function Submission(intent: Intent): E.Step {
    if intent.HaltZones? then E.BeginHalt(intent.id, intent.reason) else E.Put(intent)
  }

  function IdSet(intents: seq<Intent>): set<nat> {
    set i | 0 <= i < |intents| :: intents[i].id
  }

  function Emitted(j: Joint, r: StepResult): Joint {
    j.(line := r.state, nextId := r.nextId, outbox := j.outbox + r.intents, log := j.log + IdSet(r.intents))
  }

  function TickOf(j: Joint, a: Turn): Runs.Event
    requires a.TickNow?
  {
    Runs.Tick(a.f1, a.f2, Inputs(a.dt, a.sensors, j.inbox, a.fault), j.nextId)
  }

  function Apply(cfg: Config, j: Joint, a: Turn): Joint
    requires Enabled(j, a)
  {
    match a
    case Collect => j.(inbox := j.inbox + j.exec.done, exec := E.Apply(j.exec, E.TakeDone))
    case TickNow(f1, f2, dt, sensors, fault) => Emitted(j, Runs.React(cfg, j.line, TickOf(j, a))).(inbox := {})
    case PauseNow(f1, f2, dt) => j.(line := Runs.React(cfg, j.line, Runs.Paused(f1, f2, dt)).state)
    case AckNow(sensors, confirmed, beat) => Emitted(j, Resume(j.line, sensors, confirmed, beat, j.nextId))
    case Submit => j.(exec := E.Apply(j.exec, Submission(j.outbox[0])), outbox := j.outbox[1..])
    case Work(step) => j.(exec := E.Apply(j.exec, step))
  }

  // -------------------------------------------------------- fresh numbers

  /** A step's intents carry the next numbers, in order, and whatever it leaves
      pending was pending before or is among them. */
  predicate Numbers(before: seq<nat>, r: StepResult, id: nat) {
    && (forall i :: 0 <= i < |r.intents| ==> r.intents[i].id == id + i)
    && id + |r.intents| <= r.nextId
    && (forall x :: x in r.state.pending ==> x in before || id <= x < id + |r.intents|)
  }

  lemma {:induction false} RemainingFrom(pending: seq<nat>, completed: set<nat>)
    ensures forall x :: x in Remaining(pending, completed) <==> x in pending && x !in completed
  {
    if pending != [] {
      RemainingFrom(pending[1..], completed);
    }
  }

  lemma EmitNumbers(s: LineState, next: Phase, intents: seq<Intent>, id: nat)
    requires forall i :: 0 <= i < |intents| ==> intents[i].id == id + i
    ensures Numbers(s.pending, Emit(s, next, intents, id), id)
  {
    forall x | x in Emit(s, next, intents, id).state.pending ensures x in s.pending || id <= x < id + |intents| {
      assert x in s.pending || x in Ids(intents);
    }
  }

  lemma WorkNumbers(s: LineState, sensors: Sensors, cfg: Config, id: nat)
    ensures Numbers(s.pending, RobotWorkPhase(s, sensors, cfg, id), id)
  {
    if s.PartAt(O).Some? {
      var part := s.PartAt(O).value;
      var coated := s.(parts := s.parts[part.partId := part.(coats := Spec(s.beat).coat, isWet := true)]);
      EmitNumbers(coated, AwaitGuards, WorkBatch(s, part.partId, id), id);
    }
  }

  lemma MoveNumbers(s: LineState, sensors: Sensors, cfg: Config, id: nat)
    ensures Numbers(s.pending, MovingPhase(s, sensors, cfg, id), id)
  {
    var moves := LiveMoves(s);
    EmitNumbers(s.(inFlight := moves), Moving, [AdvanceTrain(id, TransitionDirection(s.beat), moves)], id);
  }

  lemma SetFansNumbers(s: LineState, id: nat)
    ensures Numbers(s.pending, SetFansPhase(s, id), id)
  {
    var t := SetFansPhase(s, id).state;
    var set1 := s.(beat := t.beat, pairIndex := t.pairIndex, f1Fan := t.f1Fan, f2Fan := t.f2Fan, shutter := Closed);
    EmitNumbers(set1, RobotWork, [SetFan(id, F1, t.f1Fan), SetFan(id + 1, F2, t.f2Fan)], id);
  }

  lemma DispatchNumbers(s: LineState, sensors: Sensors, cfg: Config, id: nat)
    ensures Numbers(s.pending, Dispatch(s, sensors, cfg, id), id)
  {
    match s.phase
    case RobotWork => WorkNumbers(s, sensors, cfg, id);
    case AwaitGuards =>
    case ShutterOpen => EmitNumbers(s, Moving, [SetShutter(id, Open)], id);
    case Moving => MoveNumbers(s, sensors, cfg, id);
    case ShutterClose => EmitNumbers(s, SetFans, [SetShutter(id, Closed)], id);
    case SetFans => SetFansNumbers(s, id);
    case Faulted =>
  }

  lemma StepNumbers(s: LineState, inp: Inputs, cfg: Config, id: nat)
    ensures Numbers(Remaining(s.pending, inp.completed), Step(s, inp, cfg, id), id)
  {
    var o := Observed(s, inp, cfg);
    DispatchNumbers(o, inp.sensors, cfg, id);
  }

  lemma ResumeNumbers(s: LineState, sensors: Sensors, confirmed: Option<map<Station, PartId>>, beat: Option<Beat>, id: nat)
    ensures Numbers(s.pending, Resume(s, sensors, confirmed, beat, id), id)
    ensures
      var r := Resume(s, sensors, confirmed, beat, id);
      s.phase == Faulted && r.state.phase != Faulted ==> r.state.pending == [id] && r.nextId == id + 1
  {
  }

  // ------------------------------------------------------------- invariant

  function Submitted(e: E.State): set<nat> {
    IdSet(e.submitted)
  }

  /** Every id anywhere was emitted by the controller, below its counter. What waits to
      be handed in, and what may still be reported, is among the emitted; what has been
      collected is the id of a call that returned or a halt that was carried out. */
  predicate Honest(j: Joint) {
    && E.Sound(j.exec)
    && (forall x :: x in j.log ==> x < j.nextId)
    && (forall x :: x in j.line.pending ==> x in j.log)
    && IdSet(j.outbox) <= j.log
    && Submitted(j.exec) <= j.log && j.exec.returned <= Submitted(j.exec)
    && j.exec.halting <= j.log && j.exec.halted <= j.log
    && j.inbox <= j.exec.returned + j.exec.halted
  }

  lemma NumbersLogged(j: Joint, before: seq<nat>, r: StepResult)
    requires Numbers(before, r, j.nextId) && (forall x :: x in before ==> x in j.log)
    requires Honest(j)
    ensures Honest(Emitted(j, r)) && j.log <= Emitted(j, r).log
  {
    var t := Emitted(j, r);
    forall x | x in r.state.pending ensures x in t.log {
      if x !in before {
        assert r.intents[x - j.nextId].id == x;
      }
    }
    forall x | x in IdSet(t.outbox) ensures x in t.log {
      var i :| 0 <= i < |t.outbox| && t.outbox[i].id == x;
      assert i < |j.outbox| ==> j.outbox[i].id in IdSet(j.outbox);
      assert i >= |j.outbox| ==> t.outbox[i] == r.intents[i - |j.outbox|];
    }
  }

  lemma ReactNumbers(cfg: Config, j: Joint, a: Turn)
    requires a.TickNow?
    ensures Numbers(Remaining(j.line.pending, j.inbox), Runs.React(cfg, j.line, TickOf(j, a)), j.nextId)
  {
    StepNumbers(Runs.Sensed(j.line, a.f1, a.f2), Inputs(a.dt, a.sensors, j.inbox, a.fault), cfg, j.nextId);
  }

  lemma TickHonest(cfg: Config, j: Joint, a: Turn)
    requires Honest(j) && a.TickNow?
    ensures Honest(Apply(cfg, j, a))
  {
    ReactNumbers(cfg, j, a);
    RemainingFrom(j.line.pending, j.inbox);
    NumbersLogged(j, Remaining(j.line.pending, j.inbox), Runs.React(cfg, j.line, TickOf(j, a)));
  }

  lemma AckHonest(cfg: Config, j: Joint, a: Turn)
    requires Honest(j) && a.AckNow?
    ensures Honest(Apply(cfg, j, a))
  {
    ResumeNumbers(j.line, a.sensors, a.confirmed, a.beat, j.nextId);
    NumbersLogged(j, j.line.pending, Resume(j.line, a.sensors, a.confirmed, a.beat, j.nextId));
  }

  /** What an executor step does to the ids it keeps. */
  predicate IdsMove(e: E.State, t: E.State, given: set<nat>) {
    && Submitted(t) <= Submitted(e) + given && Submitted(e) <= Submitted(t)
    && t.halting <= e.halting + given && t.halted <= e.halted + e.halting
    && e.returned <= t.returned && t.returned <= e.returned + Submitted(e) && e.halted <= t.halted
  }

  lemma WorkMoves(e: E.State, step: E.Step)
    requires E.Enabled(e, step) && !step.Put? && !step.BeginHalt?
    ensures IdsMove(e, E.Apply(e, step), {})
  {
    if step.Return? && e.worker.n < |e.submitted| {
      assert e.submitted[e.worker.n].id in Submitted(e);
    }
  }

  lemma SubmitMoves(e: E.State, intent: Intent)
    ensures IdsMove(e, E.Apply(e, Submission(intent)), {intent.id})
  {
    var t := E.Apply(e, Submission(intent));
    if !intent.HaltZones? {
      forall x | x in Submitted(t) ensures x in Submitted(e) + {intent.id} {
        var i :| 0 <= i < |t.submitted| && t.submitted[i].id == x;
        assert i < |e.submitted| ==> t.submitted[i] == e.submitted[i];
      }
      forall x | x in Submitted(e) ensures x in Submitted(t) {
        var i :| 0 <= i < |e.submitted| && e.submitted[i].id == x;
        assert t.submitted[i] == e.submitted[i];
      }
    }
  }

  lemma ExecHonest(j: Joint, t: Joint, given: set<nat>)
    requires Honest(j) && E.Sound(t.exec) && IdsMove(j.exec, t.exec, given) && given <= j.log
    requires t.line == j.line && t.nextId == j.nextId && t.log == j.log
    requires IdSet(t.outbox) <= j.log && t.inbox <= j.inbox + j.exec.done
    ensures Honest(t)
  {
  }

  lemma SubmitHonest(cfg: Config, j: Joint)
    requires Honest(j) && j.outbox != []
    ensures Honest(Apply(cfg, j, Submit))
  {
    var t := Apply(cfg, j, Submit);
    assert j.outbox[0].id in IdSet(j.outbox);
    forall x | x in IdSet(t.outbox) ensures x in j.log {
      var i :| 0 <= i < |t.outbox| && t.outbox[i].id == x;
      assert t.outbox[i] == j.outbox[i + 1] && j.outbox[i + 1].id in IdSet(j.outbox);
    }
    E.StepKeeps(j.exec, Submission(j.outbox[0]));
    SubmitMoves(j.exec, j.outbox[0]);
    ExecHonest(j, t, {j.outbox[0].id});
  }

  lemma WorkHonest(cfg: Config, j: Joint, step: E.Step)
    requires Honest(j) && Enabled(j, Work(step))
    ensures Honest(Apply(cfg, j, Work(step)))
  {
    E.StepKeeps(j.exec, step);
    WorkMoves(j.exec, step);
    ExecHonest(j, Apply(cfg, j, Work(step)), {});
  }

  lemma CollectHonest(cfg: Config, j: Joint)
    requires Honest(j)
    ensures Honest(Apply(cfg, j, Collect))
  {
    E.StepKeeps(j.exec, E.TakeDone);
    WorkMoves(j.exec, E.TakeDone);
    ExecHonest(j, Apply(cfg, j, Collect), {});
  }

  /** Every turn of controller, executor, worker or operator keeps the books honest. */
  lemma TurnKeeps(cfg: Config, j: Joint, a: Turn)
    requires Honest(j) && Enabled(j, a)
    ensures Honest(Apply(cfg, j, a))
  {
    match a
    case Collect => CollectHonest(cfg, j);
    case TickNow(f1, f2, dt, sensors, fault) => TickHonest(cfg, j, a);
    case PauseNow(f1, f2, dt) =>
    case AckNow(sensors, confirmed, beat) => AckHonest(cfg, j, a);
    case Submit => SubmitHonest(cfg, j);
    case Work(step) => WorkHonest(cfg, j, step);
  }

  // ------------------------------------------------------------- whole runs

  predicate Starts(j: Joint) {
    j.line.pending == [] && j.outbox == [] && j.log == {} && j.exec == E.Fresh && j.inbox == {}
  }

  predicate IsJointRun(cfg: Config, joints: seq<Joint>, turns: seq<Turn>) {
    && |joints| == |turns| + 1 && Starts(joints[0])
    && forall k {:trigger turns[k]} :: 0 <= k < |turns| ==>
         Enabled(joints[k], turns[k]) && joints[k + 1] == Apply(cfg, joints[k], turns[k])
  }

  lemma {:induction false} AlwaysHonest(cfg: Config, joints: seq<Joint>, turns: seq<Turn>, k: nat)
    requires IsJointRun(cfg, joints, turns) && k < |joints|
    ensures Honest(joints[k])
  {
    if k > 0 {
      AlwaysHonest(cfg, joints, turns, k - 1);
      TurnKeeps(cfg, joints[k - 1], turns[k - 1]);
    }
  }

  /** Everything pending was numbered from `low` on. */
  predicate PendingFrom(j: Joint, low: nat) {
    low <= j.nextId && forall x :: x in j.line.pending ==> x >= low
  }

  lemma TurnKeepsFrom(cfg: Config, j: Joint, a: Turn, low: nat)
    requires PendingFrom(j, low) && Enabled(j, a)
    ensures PendingFrom(Apply(cfg, j, a), low)
  {
    if a.TickNow? {
      ReactNumbers(cfg, j, a);
      RemainingFrom(j.line.pending, j.inbox);
    } else if a.AckNow? {
      ResumeNumbers(j.line, a.sensors, a.confirmed, a.beat, j.nextId);
    }
  }

  lemma {:induction false} FromThenOn(cfg: Config, joints: seq<Joint>, turns: seq<Turn>, i: nat, k: nat, low: nat)
    requires IsJointRun(cfg, joints, turns) && i <= k < |joints| && PendingFrom(joints[i], low)
    ensures PendingFrom(joints[k], low)
    decreases k - i
  {
    if i < k {
      FromThenOn(cfg, joints, turns, i, k - 1, low);
      TurnKeepsFrom(cfg, joints[k - 1], turns[k - 1], low);
    }
  }

  /** The turn lifts a fault: an acknowledgement that is accepted. */
  predicate Recovers(joints: seq<Joint>, turns: seq<Turn>, i: nat)
    requires i + 1 < |joints| && i < |turns|
  {
    turns[i].AckNow? && joints[i].line.phase == Faulted && joints[i + 1].line.phase != Faulted
  }

  lemma RecoveryIsFresh(cfg: Config, joints: seq<Joint>, turns: seq<Turn>, i: nat)
    requires IsJointRun(cfg, joints, turns) && i < |turns| && Recovers(joints, turns, i)
    ensures PendingFrom(joints[i + 1], joints[i].nextId)
    ensures forall x :: x in joints[i].log ==> x < joints[i].nextId
  {
    var a := turns[i];
    AlwaysHonest(cfg, joints, turns, i);
    ResumeNumbers(joints[i].line, a.sensors, a.confirmed, a.beat, joints[i].nextId);
  }

  lemma {:induction false} SameRemaining(pending: seq<nat>, all: set<nat>, stale: set<nat>)
    requires forall x :: x in pending ==> x !in stale
    ensures Remaining(pending, all) == Remaining(pending, all - stale)
  {
    if pending != [] {
      assert pending[0] !in stale;
      SameRemaining(pending[1..], all, stale);
    }
  }

  /** A completion left over from before a recovery never strikes off anything after
      it: at every later tick, leaving out every id emitted before the recovery, done or
      still running, changes nothing; and an id that is struck off was emitted after
      the recovery and its call returned, or its halt was carried out. */
  lemma StaleNeverStrikes(cfg: Config, joints: seq<Joint>, turns: seq<Turn>, i: nat, k: nat)
    requires IsJointRun(cfg, joints, turns) && i < k < |turns|
    requires Recovers(joints, turns, i) && turns[k].TickNow?
    ensures
      var pending, inbox, stale := joints[k].line.pending, joints[k].inbox, joints[i].log;
      && Remaining(pending, inbox) == Remaining(pending, inbox - stale)
      && forall x :: x in pending && x !in Remaining(pending, inbox) ==>
           && x !in stale && x in joints[k].log && x in inbox
           && x in joints[k].exec.returned + joints[k].exec.halted
  {
    var low := joints[i].nextId;
    RecoveryIsFresh(cfg, joints, turns, i);
    FromThenOn(cfg, joints, turns, i + 1, k, low);
    AlwaysHonest(cfg, joints, turns, k);
    SameRemaining(joints[k].line.pending, joints[k].inbox, joints[i].log);
    RemainingFrom(joints[k].line.pending, joints[k].inbox);
  }

  // ----------------------------------------------------- a fault halts the line

  /** A halt waits to be handed over, or the executor is latched. */
  predicate HaltComing(j: Joint) {
    j.exec.fault.Some? || exists i :: 0 <= i < |j.outbox| && j.outbox[i].HaltZones?
  }

  /** This tick takes the machine into a fault. */
  predicate FaultsNow(joints: seq<Joint>, turns: seq<Turn>, i: nat)
    requires i + 1 < |joints| && i < |turns|
  {
    turns[i].TickNow? && joints[i].line.phase != Faulted && joints[i + 1].line.phase == Faulted
  }

  lemma FaultingTick(cfg: Config, j: Joint, a: Turn)
    requires a.TickNow? && j.line.phase != Faulted && Apply(cfg, j, a).line.phase == Faulted
    ensures
      var t := Apply(cfg, j, a);
      && t.line.fault.Some? && |t.outbox| == |j.outbox| + 1
      && t.outbox[|j.outbox|] == HaltZones(j.nextId, t.line.fault.value)
  {
    Rules.FaultsExactly(Runs.Sensed(j.line, a.f1, a.f2), Inputs(a.dt, a.sensors, j.inbox, a.fault), cfg, j.nextId);
  }

  lemma TurnKeepsHalt(cfg: Config, j: Joint, a: Turn)
    requires HaltComing(j) && Enabled(j, a) && a != Work(E.Clear)
    ensures HaltComing(Apply(cfg, j, a))
  {
    var t := Apply(cfg, j, a);
    if j.exec.fault.None? {
      var i :| 0 <= i < |j.outbox| && j.outbox[i].HaltZones?;
      if a.Submit? {
        assert i > 0 ==> t.outbox[i - 1] == j.outbox[i];
      } else if a.TickNow? || a.AckNow? {
        assert t.outbox[i] == j.outbox[i];
      }
    }
  }

  lemma {:induction false} HaltStaysComing(cfg: Config, joints: seq<Joint>, turns: seq<Turn>, i: nat, k: nat)
    requires IsJointRun(cfg, joints, turns) && i <= k < |joints| && HaltComing(joints[i])
    requires forall m :: i <= m < k ==> turns[m] != Work(E.Clear)
    ensures HaltComing(joints[k])
    decreases k - i
  {
    if i < k {
      HaltStaysComing(cfg, joints, turns, i, k - 1);
      assert turns[k - 1] != Work(E.Clear);
      TurnKeepsHalt(cfg, joints[k - 1], turns[k - 1]);
    }
  }

  /** A fault of the machine stops the line: once all that a faulting tick left to hand
      over has been submitted, the executor is latched, and stays so until a reset. */
  lemma FaultLatchesExecutor(cfg: Config, joints: seq<Joint>, turns: seq<Turn>, i: nat, k: nat)
    requires IsJointRun(cfg, joints, turns) && i < k < |joints| && FaultsNow(joints, turns, i)
    requires joints[k].outbox == [] && forall m :: i < m < k ==> turns[m] != Work(E.Clear)
    ensures joints[k].exec.fault.Some?
  {
    FaultingTick(cfg, joints[i], turns[i]);
    assert joints[i + 1].outbox[|joints[i].outbox|].HaltZones?;
    HaltStaysComing(cfg, joints, turns, i + 1, k);
  }

  // ------------------------------------------------- every completion, once

  /** Collected at turn j, and no tick since. */
  predicate CollectedAt(joints: seq<Joint>, turns: seq<Turn>, j: nat, k: nat, id: nat)
    requires k <= |turns| < |joints|
  {
    && j < k && turns[j].Collect? && id in joints[j].exec.done
    && forall m :: j < m < k ==> !turns[m].TickNow?
  }

  lemma CollectedEarlier(joints: seq<Joint>, turns: seq<Turn>, j: nat, k: nat, id: nat)
    requires 0 < k <= |turns| < |joints| && !turns[k - 1].TickNow?
    ensures CollectedAt(joints, turns, j, k - 1, id) ==> CollectedAt(joints, turns, j, k, id)
    ensures j < k - 1 && CollectedAt(joints, turns, j, k, id) ==> CollectedAt(joints, turns, j, k - 1, id)
  {
  }

  /** A tick is shown exactly what has been collected since the tick before it: every
      completion reaches the machine once. */
  lemma {:induction false} InboxIsCollected(cfg: Config, joints: seq<Joint>, turns: seq<Turn>, k: nat, id: nat)
    requires IsJointRun(cfg, joints, turns) && k < |joints|
    ensures id in joints[k].inbox <==> exists j: nat :: CollectedAt(joints, turns, j, k, id)
  {
    if k > 0 {
      var a := turns[k - 1];
      InboxIsCollected(cfg, joints, turns, k - 1, id);
      if id in joints[k].inbox {
        if a.Collect? && id in joints[k - 1].exec.done {
          assert CollectedAt(joints, turns, k - 1, k, id);
        } else {
          var j: nat :| CollectedAt(joints, turns, j, k - 1, id);
          CollectedEarlier(joints, turns, j, k, id);
        }
      }
      if j: nat :| CollectedAt(joints, turns, j, k, id) {
        if j < k - 1 {
          assert !a.TickNow?;
          CollectedEarlier(joints, turns, j, k, id);
        }
      }
    }
  }
}

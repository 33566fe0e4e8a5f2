/** The intent executor: one worker, one queue, a done set and a fault latch shared by
    several threads, as atomic steps that may interleave in any way. */
module Executor {
  import opened Model

  /** Where the worker is with the intent of the given submission number. */
  datatype Worker =
    | Waiting
    | Holding(n: nat)
    | Passed(n: nat)
    | Running(n: nat)
    | Finished(n: nat)

  /** The shared fields, with what has happened so far kept beside them: everything
      submitted, how much has left the queue, the submission numbers started, ids
      whose device call returned, ids of halts begun and carried out, ids reported. */
  datatype State = State(
    queue: seq<Intent>,
    done: set<nat>,
    fault: Option<Reason>,
    worker: Worker,
    submitted: seq<Intent>,
    taken: nat,
    started: seq<nat>,
    returned: set<nat>,
    halting: set<nat>,
    halted: set<nat>,
    reported: set<nat>,
    latchedStarts: nat,
    resetAt: nat,
    carried: Option<nat>)

  datatype Step =
    | Put(intent: Intent)
    | BeginHalt(id: nat, reason: Reason)
    | Latch(reason: Reason)
    | DrainOne
    | Clear
    | TakeDone
    | MarkHalted(id: nat)
    | Take
    | Check
    | Start
    | Return
    | Fail(reason: Reason)
    | Report

  const Fresh := State([], {}, None, Waiting, [], 0, [], {}, {}, {}, {}, 0, 0, None)

  predicate Enabled(s: State, a: Step) {
    match a
    case DrainOne => s.queue != []
    case MarkHalted(id) => id in s.halting
    case Take => s.worker.Waiting? && s.queue != []
    case Check => s.worker.Holding?
    case Start => s.worker.Passed?
    case Return => s.worker.Running?
    case Fail(reason) => s.worker.Running?
    case Report => s.worker.Finished? && s.worker.n < |s.submitted|
    case _ => true
  }

  function Latched(s: State, reason: Reason): State {
    if s.fault.Some? then s else s.(fault := Some(reason), latchedStarts := 0)
  }

  function Held(w: Worker): Option<nat> {
    if w.Holding? || w.Passed? then Some(w.n) else None
  }

  function Apply(s: State, a: Step): State
    requires Enabled(s, a)
  {
    match a
    case Put(intent) => s.(queue := s.queue + [intent], submitted := s.submitted + [intent])
    case BeginHalt(id, reason) => Latched(s.(halting := s.halting + {id}), reason)
    case Latch(reason) => Latched(s, reason)
    case DrainOne => s.(queue := s.queue[1..], taken := s.taken + 1)
    case Clear => s.(fault := None, done := {}, latchedStarts := 0, resetAt := |s.submitted|, carried := Held(s.worker))
    case TakeDone => s.(done := {}, reported := s.reported + s.done)
    case MarkHalted(id) => s.(done := s.done + {id}, halting := s.halting - {id}, halted := s.halted + {id})
    case Take => s.(queue := s.queue[1..], taken := s.taken + 1, worker := Holding(s.taken))
    case Check => s.(worker := if s.fault.Some? then Waiting else Passed(s.worker.n))
    case Start =>
      s.(worker := Running(s.worker.n), started := s.started + [s.worker.n],
         latchedStarts := if s.fault.Some? then s.latchedStarts + 1 else 0)
    case Return =>
      s.(worker := Finished(s.worker.n),
         returned := s.returned + if s.worker.n < |s.submitted| then {s.submitted[s.worker.n].id} else {})
    case Fail(reason) => Latched(s.(worker := Waiting), reason)
    case Report => s.(done := s.done + {s.submitted[s.worker.n].id}, worker := Waiting)
  }

  // -------------------------------------------------------------- invariant

  predicate Rising(ns: seq<nat>) {
    forall i, k :: 0 <= i < k < |ns| ==> ns[i] < ns[k]
  }

  /** The worker's intent has left the queue, and every earlier start came before it. */
  predicate WorkerFits(s: State) {
    match s.worker
    case Waiting => true
    case Holding(n) => n < s.taken && forall i :: 0 <= i < |s.started| ==> s.started[i] < n
    case Passed(n) => n < s.taken && forall i :: 0 <= i < |s.started| ==> s.started[i] < n
    case Running(n) => n < s.taken && s.started != [] && s.started[|s.started| - 1] == n
    case Finished(n) =>
      && n < s.taken && s.started != [] && s.started[|s.started| - 1] == n
      && n < |s.submitted| && s.submitted[n].id in s.returned
  }

  predicate Sound(s: State) {
    && s.taken <= |s.submitted| && s.queue == s.submitted[s.taken..]
    && Rising(s.started) && (forall i :: 0 <= i < |s.started| ==> s.started[i] < s.taken)
    && WorkerFits(s)
    && s.done <= s.returned + s.halted && s.reported <= s.returned + s.halted
    && (s.fault.Some? ==> s.latchedStarts <= 1 && (s.worker.Passed? ==> s.latchedStarts == 0))
    && (s.fault.None? ==> s.latchedStarts == 0)
  }

  lemma QueueMoves(s: State)
    requires s.taken < |s.submitted| && s.queue == s.submitted[s.taken..]
    ensures s.queue[1..] == s.submitted[s.taken + 1..] && s.queue != []
  {
  }

  lemma StepKeeps(s: State, a: Step)
    requires Sound(s) && Enabled(s, a)
    ensures Sound(Apply(s, a))
  {
    if a.Take? || a.DrainOne? {
      QueueMoves(s);
    }
  }

  predicate IsRun(states: seq<State>, steps: seq<Step>) {
    && |states| == |steps| + 1 && states[0] == Fresh
    && forall k {:trigger steps[k]} :: 0 <= k < |steps| ==>
         Enabled(states[k], steps[k]) && states[k + 1] == Apply(states[k], steps[k])
  }

  /** Under every interleaving: intents start in submission order and at most once, an
      id is reported done only after its device call returned (or its halt was carried
      out), and while the latch holds at most one intent starts. */
  lemma {:induction false} RunIsSound(states: seq<State>, steps: seq<Step>, k: nat)
    requires IsRun(states, steps) && k < |states|
    ensures Sound(states[k])
  {
    if k > 0 {
      RunIsSound(states, steps, k - 1);
      StepKeeps(states[k - 1], steps[k - 1]);
    }
  }

  /** The one intent that may start under the latch had passed its check before. */
  lemma LatchedStartHadPassed(states: seq<State>, steps: seq<Step>, i: nat, k: nat)
    requires IsRun(states, steps) && i < k < |steps|
    requires states[i].fault.None? && forall j :: i < j <= k ==> states[j].fault.Some?
    requires steps[k].Start?
    ensures states[i + 1].worker == states[k].worker && states[k].worker.Passed?
  {
    PassedSince(states, steps, i + 1, k);
  }

  lemma {:induction false} PassedSince(states: seq<State>, steps: seq<Step>, i: nat, k: nat)
    requires IsRun(states, steps) && i <= k < |states|
    requires forall j :: i <= j <= k ==> states[j].fault.Some?
    requires states[k].worker.Passed?
    ensures states[i].worker == states[k].worker
    decreases k - i
  {
    if i < k {
      assert states[k] == Apply(states[k - 1], steps[k - 1]);
      PassedSince(states, steps, i, k - 1);
    }
  }

  /** The first fault reason stays latched until a reset. */
  lemma {:induction false} FirstReasonStays(states: seq<State>, steps: seq<Step>, i: nat, k: nat)
    requires IsRun(states, steps) && i <= k < |states|
    requires states[i].fault.Some? && forall j :: i <= j < k ==> !steps[j].Clear?
    ensures states[k].fault == states[i].fault
    decreases k - i
  {
    if i < k {
      FirstReasonStays(states, steps, i, k - 1);
      assert !steps[k - 1].Clear?;
    }
  }

  // ------------------------------------------------------- after a failure

  /** A device failure, a halt begun for an intent, or one called for directly. */
  predicate Latches(a: Step) {
    a.Fail? || a.BeginHalt? || a.Latch?
  }

  function ReasonOf(a: Step): Reason
    requires Latches(a)
  {
    match a
    case Fail(reason) => reason
    case BeginHalt(id, reason) => reason
    case Latch(reason) => reason
  }

  /** No reset in the steps from i up to k. */
  predicate NoReset(steps: seq<Step>, i: nat, k: nat)
    requires k <= |steps|
  {
    forall j :: i <= j < k ==> !steps[j].Clear?
  }

  /** Every failure and every halt latches, with its own reason unless one stood before,
      and the latch holds until a reset. */
  lemma FailureLatches(states: seq<State>, steps: seq<Step>, i: nat, k: nat)
    requires IsRun(states, steps) && i < k < |states| && Latches(steps[i]) && NoReset(steps, i + 1, k)
    ensures states[k].fault == if states[i].fault.Some? then states[i].fault else Some(ReasonOf(steps[i]))
  {
    assert states[i + 1] == Apply(states[i], steps[i]);
    FirstReasonStays(states, steps, i + 1, k);
  }

  /** Between intents, or with one in hand that has not passed its check. */
  predicate Unchecked(w: Worker) {
    w.Waiting? || w.Holding?
  }

  lemma {:induction false} StaysUnchecked(states: seq<State>, steps: seq<Step>, i: nat, k: nat)
    requires IsRun(states, steps) && i <= k < |states| && NoReset(steps, i, k)
    requires states[i].fault.Some? && Unchecked(states[i].worker)
    ensures states[k].fault.Some? && Unchecked(states[k].worker)
    decreases k - i
  {
    if i < k {
      StaysUnchecked(states, steps, i, k - 1);
      assert !steps[k - 1].Clear?;
    }
  }

  /** After a failure nothing starts before a reset. */
  lemma NothingStartsAfterFailure(states: seq<State>, steps: seq<Step>, i: nat, k: nat)
    requires IsRun(states, steps) && i < k < |steps| && steps[i].Fail? && NoReset(steps, i + 1, k)
    ensures !steps[k].Start?
  {
    assert states[i + 1] == Apply(states[i], steps[i]);
    StaysUnchecked(states, steps, i + 1, k);
    assert Enabled(states[k], steps[k]);
  }

  /** After a halt nothing starts before a reset but what had passed its check already:
      behind a check that follows the halt there is no start. */
  lemma NothingCheckedAfterHaltStarts(states: seq<State>, steps: seq<Step>, i: nat, j: nat, k: nat)
    requires IsRun(states, steps) && i < j < k < |steps| && Latches(steps[i]) && NoReset(steps, i + 1, k)
    requires steps[j].Check?
    ensures !steps[k].Start?
  {
    FailureLatches(states, steps, i, j);
    assert states[j + 1] == Apply(states[j], steps[j]);
    StaysUnchecked(states, steps, j + 1, k);
    assert Enabled(states[k], steps[k]);
  }

  /** Nobody holds submission n, nor will take it. */
  predicate Gone(s: State, n: nat) {
    n < s.taken && n !in s.started && (s.worker.Waiting? || s.worker.n != n)
  }

  lemma {:induction false} GoneStays(states: seq<State>, steps: seq<Step>, i: nat, k: nat, n: nat)
    requires IsRun(states, steps) && i <= k < |states| && Gone(states[i], n)
    ensures Gone(states[k], n)
    decreases k - i
  {
    if i < k {
      GoneStays(states, steps, i, k - 1, n);
      assert states[k] == Apply(states[k - 1], steps[k - 1]);
    }
  }

  /** What a halt drains off the queue never starts, reset or not. */
  lemma DrainedNeverStarts(states: seq<State>, steps: seq<Step>, i: nat, k: nat)
    requires IsRun(states, steps) && i < k < |states| && steps[i].DrainOne?
    ensures |states[i + 1].queue| == |states[i].queue| - 1
    ensures states[i].taken < |states[i].submitted| && states[i].queue[0] == states[i].submitted[states[i].taken]
    ensures states[i].taken !in states[k].started
  {
    RunIsSound(states, steps, i);
    assert states[i + 1] == Apply(states[i], steps[i]);
    assert Gone(states[i + 1], states[i].taken);
    GoneStays(states, steps, i + 1, k, states[i].taken);
  }

  // ----------------------------------------------------------- completions

  /** The id a step reports done, if it reports one. */
  function Reports(s: State, a: Step): Option<nat>
    requires Enabled(s, a)
  {
    match a
    case Report => Some(s.submitted[s.worker.n].id)
    case MarkHalted(id) => Some(id)
    case _ => None
  }

  /** Reported at step j, and neither collected nor reset away since. */
  predicate ReportedAt(states: seq<State>, steps: seq<Step>, j: nat, k: nat, id: nat)
    requires k <= |steps| < |states|
  {
    && j < k && Enabled(states[j], steps[j]) && Reports(states[j], steps[j]) == Some(id)
    && forall m :: j < m < k ==> !steps[m].TakeDone? && !steps[m].Clear?
  }

  lemma ReportedEarlier(states: seq<State>, steps: seq<Step>, j: nat, k: nat, id: nat)
    requires 0 < k <= |steps| < |states| && !steps[k - 1].TakeDone? && !steps[k - 1].Clear?
    ensures ReportedAt(states, steps, j, k - 1, id) ==> ReportedAt(states, steps, j, k, id)
    ensures j < k - 1 && ReportedAt(states, steps, j, k, id) ==> ReportedAt(states, steps, j, k - 1, id)
  {
  }

  /** What waits to be collected is exactly what has been reported since the last
      collection or reset: no completion is lost, and none is handed out twice. */
  lemma {:induction false} DoneIsReported(states: seq<State>, steps: seq<Step>, k: nat, id: nat)
    requires IsRun(states, steps) && k < |states|
    ensures id in states[k].done <==> exists j: nat :: ReportedAt(states, steps, j, k, id)
  {
    if k > 0 {
      var a := steps[k - 1];
      DoneIsReported(states, steps, k - 1, id);
      if id in states[k].done {
        if Reports(states[k - 1], a) == Some(id) {
          assert ReportedAt(states, steps, k - 1, k, id);
        } else {
          var j: nat :| ReportedAt(states, steps, j, k - 1, id);
          ReportedEarlier(states, steps, j, k, id);
        }
      }
      if j: nat :| ReportedAt(states, steps, j, k, id) {
        if j < k - 1 {
          assert !a.TakeDone? && !a.Clear?;
          ReportedEarlier(states, steps, j, k, id);
        }
      }
    }
  }

  /** The worker reports the call it has back before anything else. */
  lemma ReturnedIsReported(states: seq<State>, steps: seq<Step>, i: nat, k: nat) returns (m: nat)
    requires IsRun(states, steps) && i < k < |states| && steps[i].Return? && states[k].worker.Waiting?
    ensures i < m < k && steps[m].Report? && states[m].worker == Finished(states[i].worker.n)
  {
    m := i + 1;
    while !steps[m].Report?
      invariant i < m < k && states[m].worker == Finished(states[i].worker.n)
      decreases k - m
    {
      assert Enabled(states[m], steps[m]) && states[m + 1] == Apply(states[m], steps[m]);
      m := m + 1;
    }
  }

  // ------------------------------------------------------------- after a reset

  /** A reset drains before it clears, with no submission between. */
  predicate ClearsEmpty(s: State, a: Step) {
    a.Clear? ==> s.queue == []
  }

  predicate AllClearEmpty(states: seq<State>, steps: seq<Step>) {
    |states| == |steps| + 1 && forall k {:trigger steps[k]} :: 0 <= k < |steps| ==> ClearsEmpty(states[k], steps[k])
  }

  /** Nothing older than the last reset is still on its way, except what the worker
      held when it was cleared. */
  predicate SinceReset(s: State) {
    && s.resetAt <= s.taken
    && (Held(s.worker).Some? ==> Held(s.worker).value >= s.resetAt || Held(s.worker) == s.carried)
  }

  lemma StepKeepsReset(s: State, a: Step)
    requires Sound(s) && SinceReset(s) && Enabled(s, a) && ClearsEmpty(s, a)
    ensures SinceReset(Apply(s, a))
  {
  }

  lemma {:induction false} RunSinceReset(states: seq<State>, steps: seq<Step>, k: nat)
    requires IsRun(states, steps) && k < |states|
    requires AllClearEmpty(states, steps)
    ensures SinceReset(states[k])
  {
    if k > 0 {
      RunSinceReset(states, steps, k - 1);
      RunIsSound(states, steps, k - 1);
      StepKeepsReset(states[k - 1], steps[k - 1]);
    }
  }

  /** What can still start after a reset: only intents submitted since, or the single
      one the worker had taken before the reset and not yet started. The latter is a
      real exception: the poison check can fall after the reset. */
  lemma StartsAfterReset(states: seq<State>, steps: seq<Step>, k: nat)
    requires IsRun(states, steps) && k < |steps| && steps[k].Start?
    requires AllClearEmpty(states, steps)
    ensures
      var n := states[k].worker.n;
      n >= states[k].resetAt || Some(n) == states[k].carried
  {
    RunSinceReset(states, steps, k);
    assert Enabled(states[k], steps[k]);
  }

  /** The exception happens: an intent taken before a halt and checked after the reset
      is started, though it was submitted before both. */
  lemma OldIntentCanStart(i: Intent, why: Reason)
    ensures
      var held := Apply(Apply(Fresh, Put(i)), Take);
      var reset := Apply(Apply(held, Latch(why)), Clear);
      var begun := Apply(Apply(reset, Check), Start);
      begun.started == [0] && begun.fault.None? && 0 < begun.resetAt
  {
  }
}

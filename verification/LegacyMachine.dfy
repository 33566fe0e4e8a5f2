/** The legacy sequencer as the program holds it: one object whose fields every step
    updates in place, each method tied to the step function it carries out. */
module LegacyMachine {
  import opened Model
  import opened Schedule
  import opened Timers
  import opened Legacy
  import LegacyRuns
  import LegacyCoats

  /** Declared parts alternate LEAD and TRAIL by their running count. */
  function DeclaredPart(pid: PartId, product: Product, count: nat): PartState {
    PartState(pid, product, if count % 2 == 0 then LEAD else TRAIL, count / 2, 0, 0.0, 0.0, false)
  }

  /** Declaring ids one by one, stopping at the first one already known. */
  function DeclaredAll(s: Sequencer, product: Product, count: nat, ids: seq<PartId>): (Sequencer, nat)
    decreases |ids|
  {
    if ids == [] || ids[0] in s.parts || ids[0] in s.queue then (s, count)
    else DeclaredAll(Declared(s, ids[0], DeclaredPart(ids[0], product, count)), product, count + 1, ids[1..])
  }

  class LegacySequencer {
    const cfg: LegacyConfig
    var parts: map<PartId, PartState>
    var occ: map<Station, PartId>
    var queue: seq<PartId>
    var completed: seq<PartId>
    var declared: nat
    var pair: int
    var pending: Option<PartId>
    var pendingClean: bool
    var beat: Beat
    var phase: LegacyPhase
    var fault: Option<Trouble>
    var f1On: bool

    function Value(): Sequencer
      reads this
    {
      Sequencer(parts, occ, queue, completed, pair, pending, pendingClean, beat, phase, fault, f1On)
    }

    constructor (cfg: LegacyConfig)
      ensures this.cfg == cfg && declared == 0
      ensures Value() == Sequencer(map[], map[], [], [], -1, None, false, P1, Idle, None, cfg.f1 == AlwaysOn)
    {
      this.cfg := cfg;
      parts, occ, queue, completed, declared, pair := map[], map[], [], [], 0, -1;
      pending, pendingClean, beat, phase, fault, f1On := None, false, P1, Idle, None, cfg.f1 == AlwaysOn;
    }

    method SetFan(on: bool)
      modifies this`f1On
      ensures Value() == SetF1(old(Value()), cfg, on)
    {
      if cfg.f1 == RobotDo && f1On != on { f1On := on; }
    }

    method Bank(dt: real)
      modifies this`parts
      ensures Value() == BankAll(old(Value()), cfg, dt)
    {
      if dt <= 0.0 { return; }
      var stations := [F1, F2];
      for i := 0 to 2
        invariant i == 0 ==> Value() == old(Value())
        invariant i == 1 ==> Value() == BankAt(old(Value()), cfg, F1, dt)
        invariant i == 2 ==> Value() == BankAt(BankAt(old(Value()), cfg, F1, dt), cfg, F2, dt)
      {
        var st := stations[i];
        if st in occ && occ[st] in parts {
          var part := parts[occ[st]];
          if part.coats >= 1 && FanCounts(Value(), cfg, st) {
            part := part.WithFlashAdvanced(dt);
            if part.isWet && part.ActiveFlash() >= cfg.flash.flashSeconds {
              part := part.(isWet := false);
            }
            parts := parts[occ[st] := part];
          }
        }
      }
    }

    method Stop(why: Trouble)
      modifies this`fault, this`phase
      ensures Value() == Fault(old(Value()), why)
    {
      fault, phase := Some(why), Halted;
    }

    method Admit(w: World, role: Role) returns (pid: PartId)
      modifies this`queue, this`parts, this`pair
      ensures (Value(), pid) == Admitted(old(Value()), w, role)
    {
      if queue != [] {
        pid, queue := queue[0], queue[1..];
      } else {
        pid := w.newId;
        if role == LEAD { pair := pair + 1; }
        parts := parts[pid := PartState(pid, w.product, role, if pair < 0 then 0 else pair, 0, 0.0, 0.0, false)];
      }
    }

    method RunIdle(w: World) returns (e: Effect)
      modifies this
      ensures (Value(), e) == StepIdle(old(Value()), cfg, w)
    {
      e := Quiet;
      if occ != map[] || (queue == [] && !cfg.continuous) { return; }
      if w.eyes.None? { Stop(BeltFailed); return; }
      if !w.eyes.value.staging {
        if w.intake.Raises? { Stop(BeltFailed); return; }
        if !w.intake.ok {
          if !cfg.continuous { Stop(NotFoundAtInfeed); }
          return;
        }
      }
      if w.belt.Raises? { Stop(BeltFailed); return; }
      if !w.belt.ok { Stop(NeverReachedWorkZero); return; }
      var pid := Admit(w, LEAD);
      occ := occ[O := pid];
      beat, phase := P1, Robot;
      e := Effect(None, [pid]);
    }

    /** The burst, the F1 fan off around it when a wet part rests there. The fan goes
        off before the sanding span is banked, so that span earns the part nothing. */
    method Burst(w: World) returns (done: bool)
      modifies this`parts, this`f1On
      ensures done == (w.robot != SprayFails)
      ensures Value() == if done then AfterBurst(old(Value()), cfg, w) else AbortedBurst(old(Value()), cfg, w)
    {
      var pausing := F1 in occ && occ[F1] in parts && parts[occ[F1]].isWet && cfg.f1 == RobotDo;
      if pausing { SetFan(false); }
      Bank(w.toBurst);
      if w.robot == SprayFails { return false; }
      Bank(w.burst);
      if pausing { SetFan(true); }
      done := true;
    }

    method RunRobot(w: World) returns (e: Effect)
      modifies this
      ensures (Value(), e) == StepRobot(old(Value()), cfg, w)
    {
      e := Quiet;
      var spec := Spec(beat);
      if O in occ && occ[O] in parts && parts[occ[O]].coats < spec.coat {
        var pid, part := occ[O], parts[occ[O]];
        if w.robot == SandFails { Stop(RobotFailed); return; }
        var done := Burst(w);
        e := Effect(Some((pid, spec.coat)), []);
        if !done || w.robot == RetractFails { Stop(RobotFailed); return; }
        pendingClean := spec.cleanGun;
        parts := parts[pid := part.(coats := spec.coat, isWet := true)];
      }
      phase := Flash;
    }

    method RunFlash(w: World) returns (e: Effect)
      modifies this
      ensures (Value(), e) == StepFlash(old(Value()), cfg, w)
    {
      e := Quiet;
      if pendingClean {
        pendingClean := false;
        if w.cleanFails { Stop(CleanFailed); return; }
      }
      if w.eyes.None? || DepartureBlocked(Value(), cfg, w.eyes.value) { return; }
      var entry := (beat == P1 || beat == P4) && (queue != [] || cfg.continuous);
      phase := if entry then Stage else Transition;
    }

    method RunStage(w: World) returns (e: Effect)
      modifies this
      ensures (Value(), e) == StepStage(old(Value()), cfg, w)
    {
      e := Quiet;
      if w.eyes.None? { Stop(SensorReadFailed); return; }
      if !w.eyes.value.onload {
        if !cfg.continuous { Stop(NotFoundAtInfeed); return; }
        pending, phase := None, Transition;
        return;
      }
      if w.stage.Raises? { Stop(BeltFailed); return; }
      if !w.stage.ok {
        if !cfg.continuous { Stop(StagingFailed); return; }
        pending, phase := None, Transition;
        return;
      }
      var pid := Admit(w, if beat == P1 then TRAIL else LEAD);
      pending, phase := Some(pid), Transition;
      e := Effect(None, [pid]);
    }

    method TakeOff()
      modifies this`occ, this`completed
      ensures occ == old(occ) - {F2}
      ensures completed == if old(Value()).Holds(F2) then old(completed) + [old(occ)[F2]] else old(completed)
    {
      if F2 in occ {
        var pid := occ[F2];
        occ := occ - {F2};
        if pid != EmptyId { completed := completed + [pid]; }
      }
    }

    method PassOn(src: Station, dst: Station)
      requires src != dst
      modifies this`occ
      ensures occ == if old(Value()).Holds(src) then (old(occ) - {src})[dst := old(occ)[src]] else old(occ)
    {
      if Value().Holds(src) { occ := (occ - {src})[dst := occ[src]]; }
    }

    method ShiftDownstream(enterer: Option<PartId>)
      modifies this`occ, this`completed
      ensures Value() == MovedDown(old(Value()), enterer)
    {
      TakeOff();
      PassOn(O, F2);
      PassOn(F1, O);
      if enterer.Some? { occ := occ[O := enterer.value]; }
    }

    /** The belt work of one transition; false when it ended in a fault. */
    method Convey(w: World) returns (moved: bool)
      modifies this
      ensures
        var (t, failed) := Shifted(old(Value()), w);
        moved == failed.None? && Value() == if failed.Some? then Fault(t, failed.value) else t
    {
      moved := false;
      match beat {
        case P2 =>
          if Value().Holds(F2) {
            if w.belt.Raises? { Stop(BeltFailed); return; }
            if !w.belt.ok { Stop(NeverReachedWorkZero); return; }
            if Value().Holds(O) { occ := (occ - {O})[F1 := occ[O]]; }
            occ := (occ - {F2})[O := occ[F2]];
          }
        case P3 =>
          if Value().Holds(F1) {
            if Value().Holds(F2) { Stop(F2OccupiedAtReturn); return; }
            if w.belt.Raises? { Stop(BeltFailed); return; }
            if !w.belt.ok { Stop(NeverReachedWorkZero); return; }
            if Value().Holds(O) { occ := (occ - {O})[F2 := occ[O]]; }
            occ := (occ - {F1})[O := occ[F1]];
          } else if occ != map[] {
            if w.belt.Raises? { Stop(BeltFailed); return; }
            ShiftDownstream(None);
          }
        case _ =>
          if pending.Some? {
            if Value().Holds(F1) { Stop(F1OccupiedAtEntry); return; }
            if w.belt.Raises? { Stop(BeltFailed); return; }
            if !w.belt.ok { Stop(NeverReachedWorkZero); return; }
            var enterer := pending;
            pending := None;
            ShiftDownstream(enterer);
          } else if occ != map[] {
            if w.belt.Raises? { Stop(BeltFailed); return; }
            ShiftDownstream(None);
          }
      }
      moved := true;
    }

    method RunTransition(w: World) returns (e: Effect)
      modifies this
      ensures (Value(), e) == StepTransition(old(Value()), cfg, w)
    {
      e := Quiet;
      var moved := Convey(w);
      if !moved { return; }
      var wet := F1 in occ && occ[F1] in parts && parts[occ[F1]].isWet;
      beat := NextBeat(beat);
      SetFan(wet);
      phase := if occ == map[] && queue == [] then Idle else Robot;
    }

    method Step(w: World) returns (e: Effect)
      modifies this
      ensures (Value(), e) == Stepped(old(Value()), cfg, w)
      ensures LegacyRuns.Sound(old(Value())) && LegacyRuns.Mints(old(Value()), w) ==>
        LegacyRuns.Sound(Value()) && LegacyRuns.Ordered(old(Value()), Value(), e.admitted)
    {
      if LegacyRuns.Sound(Value()) && LegacyRuns.Mints(Value(), w) { LegacyRuns.StepKeeps(Value(), cfg, w); }
      Bank(w.dt);
      if phase == Halted { return Quiet; }
      if w.feedFails { Stop(FeedWatchFailed); return Quiet; }
      match phase {
        case Idle => e := RunIdle(w);
        case Robot => e := RunRobot(w);
        case Flash => e := RunFlash(w);
        case Stage => e := RunStage(w);
        case Transition => e := RunTransition(w);
        case Halted => e := Quiet;
      }
    }

    method DeclareOne(pid: PartId, product: Product)
      requires pid !in parts && pid !in queue
      modifies this
      ensures Value() == Declared(old(Value()), pid, DeclaredPart(pid, product, old(declared)))
      ensures declared == old(declared) + 1
    {
      parts := parts[pid := DeclaredPart(pid, product, declared)];
      declared, queue := declared + 1, queue + [pid];
    }

    /** Ids before the first known one stay declared even though the call fails. */
    method DeclareBatch(product: Product, ids: seq<PartId>) returns (ok: bool)
      modifies this
      ensures (Value(), declared) == DeclaredAll(old(Value()), product, old(declared), ids)
      ensures ok == (declared == old(declared) + |ids|)
    {
      for i := 0 to |ids|
        invariant DeclaredAll(Value(), product, declared, ids[i..]) ==
          DeclaredAll(old(Value()), product, old(declared), ids)
        invariant declared == old(declared) + i
      {
        assert ids[i..][0] == ids[i] && ids[i..][1..] == ids[i + 1..];
        if ids[i] in parts || ids[i] in queue { return false; }
        DeclareOne(ids[i], product);
      }
      ok := true;
    }
  }

  /** The batch of two that LegacyCoats starts from is what declaring it leaves. */
  lemma MorningIsDeclared()
    ensures
      var empty := Sequencer(map[], map[], [], [], -1, None, false, P1, Idle, None, true);
      DeclaredAll(empty, CUBE, 0, [Id(0), Id(1)]) == (LegacyCoats.Morning, 2)
  {
    var empty := Sequencer(map[], map[], [], [], -1, None, false, P1, Idle, None, true);
    var one := Declared(empty, Id(0), DeclaredPart(Id(0), CUBE, 0));
    assert [Id(0), Id(1)][1..] == [Id(1)] && [Id(1)][1..] == [];
    assert one.queue == [Id(0)];
    assert Declared(one, Id(1), DeclaredPart(Id(1), CUBE, 1)) == LegacyCoats.Morning;
  }

  predicate Known(s: Sequencer, pid: PartId) {
    pid in s.parts || pid in s.queue
  }

  /** How many ids are taken before the first that is known, or repeated. */
  predicate TakesFirst(s: Sequencer, ids: seq<PartId>, n: nat)
    requires n <= |ids|
  {
    && (forall i :: 0 <= i < n ==> !Known(s, ids[i]) && ids[i] !in ids[..i])
    && (n < |ids| ==> Known(s, ids[n]) || ids[n] in ids[..n])
  }

  /** The first n ids declared: queued in order, with fresh records, leads and trails in
      turn by the running count, two to a pair; and nothing else changed. */
  ghost predicate DeclaredAs(s: Sequencer, t: Sequencer, product: Product, count: nat, ids: seq<PartId>) {
    && t == s.(parts := t.parts, queue := s.queue + ids)
    && (forall pid :: pid in t.parts <==> pid in s.parts || pid in ids)
    && (forall pid :: pid in s.parts ==> t.parts[pid] == s.parts[pid])
    && (forall i :: 0 <= i < |ids| ==> t.parts[ids[i]] == Fresh(ids[i], product, count + i))
  }

  function Fresh(pid: PartId, product: Product, n: nat): PartState {
    PartState(pid, product, if n % 2 == 0 then LEAD else TRAIL, n / 2, 0, 0.0, 0.0, false)
  }

  lemma OneThenRest(s: Sequencer, u: Sequencer, t: Sequencer, product: Product, count: nat, pid: PartId, rest: seq<PartId>)
    requires pid !in s.parts && u == s.(parts := s.parts[pid := Fresh(pid, product, count)], queue := s.queue + [pid])
    requires DeclaredAs(u, t, product, count + 1, rest)
    ensures DeclaredAs(s, t, product, count, [pid] + rest)
  {
    assert s.queue + ([pid] + rest) == (s.queue + [pid]) + rest;
    forall i | 0 <= i < |rest| + 1 ensures t.parts[([pid] + rest)[i]] == Fresh(([pid] + rest)[i], product, count + i) {
      assert i > 0 ==> ([pid] + rest)[i] == rest[i - 1];
    }
  }

  lemma NoneTaken(s: Sequencer, product: Product, count: nat, ids: seq<PartId>)
    requires ids == [] || Known(s, ids[0])
    ensures TakesFirst(s, ids, 0) && DeclaredAs(s, s, product, count, ids[..0])
  {
    assert s.queue + [] == s.queue;
  }

  lemma PrefixSplits(ids: seq<PartId>, n: nat)
    requires n < |ids|
    ensures ids[..n + 1] == [ids[0]] + ids[1..][..n]
  {
  }

  lemma OneTaken(s: Sequencer, u: Sequencer, t: Sequencer, product: Product, count: nat, ids: seq<PartId>, n: nat)
    requires ids != [] && !Known(s, ids[0]) && u == Declared(s, ids[0], Fresh(ids[0], product, count))
    requires n < |ids| && DeclaredAs(u, t, product, count + 1, ids[1..][..n])
    ensures DeclaredAs(s, t, product, count, ids[..n + 1])
  {
    OneThenRest(s, u, t, product, count, ids[0], ids[1..][..n]);
    PrefixSplits(ids, n);
  }

  /** Declaring a batch takes its ids up to the first that is already known, or repeated. */
  lemma {:induction false} DeclaredMeans(s: Sequencer, product: Product, count: nat, ids: seq<PartId>) returns (n: nat)
    ensures n <= |ids| && TakesFirst(s, ids, n)
    ensures DeclaredAs(s, DeclaredAll(s, product, count, ids).0, product, count, ids[..n])
    ensures DeclaredAll(s, product, count, ids).1 == count + n
    decreases |ids|
  {
    if ids == [] || Known(s, ids[0]) {
      n := 0;
      NoneTaken(s, product, count, ids);
    } else {
      var u := Declared(s, ids[0], DeclaredPart(ids[0], product, count));
      n := DeclaredMeans(u, product, count + 1, ids[1..]);
      TakenOneMore(s, u, ids, n);
      OneTaken(s, u, DeclaredAll(u, product, count + 1, ids[1..]).0, product, count, ids, n);
      n := n + 1;
    }
  }

  lemma TakenOneMore(s: Sequencer, u: Sequencer, ids: seq<PartId>, n: nat)
    requires ids != [] && !Known(s, ids[0]) && n < |ids| && TakesFirst(u, ids[1..], n)
    requires forall pid :: Known(u, pid) <==> Known(s, pid) || pid == ids[0]
    ensures TakesFirst(s, ids, n + 1)
  {
    forall i | 0 <= i < n + 1 ensures !Known(s, ids[i]) && ids[i] !in ids[..i] {
      if i > 0 {
        assert ids[1..][i - 1] == ids[i] && ids[..i] == [ids[0]] + ids[1..][..i - 1];
      }
    }
    if n + 1 < |ids| {
      assert ids[1..][n] == ids[n + 1] && ids[..n + 1] == [ids[0]] + ids[1..][..n];
    }
  }
}

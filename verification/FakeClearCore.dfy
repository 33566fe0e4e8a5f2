/** The executable specification of the firmware as it runs: register lists and zone
    blocks rewritten in place, a distance move timed instead of sensed. */
module FakeClearCore {
  import opened Model
  import opened Firmware
  import opened FirmwareMachine

  const VelocityReg: nat := 102

  class FakeZoneBlock {
    const modeReg: nat
    const distReg: nat
    const reqIdReg: nat
    const targetReg: nat
    const stateReg: nat
    const ackReg: nat
    var lastReqId: nat
    var moveDoneAt: Option<real>
    var edgeWatch: Option<Watch>

    predicate Valid()
      reads this
    {
      modeReg < TableSize && distReg < TableSize && reqIdReg < TableSize && targetReg < TableSize
      && stateReg < TableSize && ackReg < TableSize && stateReg != ackReg
      && (edgeWatch.Some? ==> edgeWatch.value.sensor < TableSize)
    }

    function Value(regs: RegisterFile): FakeZone
      requires Valid() && regs.Valid()
      reads this, regs.inputs
    {
      FakeZone(lastReqId, moveDoneAt.Some?, edgeWatch, regs.inputs[stateReg], regs.inputs[ackReg])
    }

    function Written(regs: RegisterFile): Command
      requires Valid() && regs.Valid()
      reads this, regs.holding
    {
      Command(regs.holding[modeReg], regs.holding[reqIdReg], regs.holding[targetReg])
    }

    /** The timed move is over: the specification's stand-in for steps complete. */
    predicate Done(now: real)
      reads this
    {
      moveDoneAt.Some? && now >= moveDoneAt.value
    }

    constructor (mode: nat, dist: nat, reqId: nat, target: nat, state: nat, ack: nat)
      requires mode < TableSize && dist < TableSize && reqId < TableSize && target < TableSize
      requires state < TableSize && ack < TableSize && state != ack
      ensures Valid() && modeReg == mode && distReg == dist && reqIdReg == reqId && targetReg == target
      ensures stateReg == state && ackReg == ack && lastReqId == 0 && moveDoneAt == None && edgeWatch == None
    {
      modeReg, distReg, reqIdReg, targetReg, stateReg, ackReg := mode, dist, reqId, target, state, ack;
      lastReqId, moveDoneAt, edgeWatch := 0, None, None;
    }

    method Rest(regs: RegisterFile, state: nat)
      requires Valid() && regs.Valid()
      modifies this, regs.inputs
      ensures Valid() && Value(regs) == old(Value(regs)).(moving := false, watch := None, state := state)
      ensures forall i :: 0 <= i < TableSize && i != stateReg ==> regs.inputs[i] == old(regs.inputs[i])
    {
      moveDoneAt, edgeWatch := None, None;
      regs.inputs[stateReg] := state;
    }

    /** One tick of the zone; false where an unknown target raises. */
    method Tick(regs: RegisterFile, tripped: bool, now: real, velocity: nat) returns (ok: bool)
      requires Valid() && regs.Valid() && velocity > 0
      modifies this, regs.inputs
      ensures Valid()
      ensures
        var t := TickFake(old(Value(regs)), tripped, old(Written(regs)), old(Levels(regs)), old(Done(now)));
        ok == t.Some? && (ok ==> Value(regs) == t.value)
      ensures forall i :: 0 <= i < TableSize && i != stateReg && i != ackReg ==> regs.inputs[i] == old(regs.inputs[i])
    {
      ok := true;
      if tripped { Rest(regs, StateReady); return; }
      var mode, reqId := regs.holding[modeReg], regs.holding[reqIdReg];
      if mode == ModeContinuous {
        Rest(regs, StateMoving);
      } else if mode == ModeIdle {
        Rest(regs, StateReady);
      } else if mode == ModeDistance {
        if reqId != lastReqId {
          lastReqId := reqId;
          moveDoneAt := Some(now + regs.holding[distReg] as real / velocity as real);
          regs.inputs[stateReg] := StateMoving;
          regs.inputs[ackReg] := reqId;
        } else if moveDoneAt.Some? && now >= moveDoneAt.value {
          moveDoneAt := None;
          regs.inputs[stateReg] := StateReady;
        }
      } else if mode == ModeSensorStop {
        if reqId != lastReqId {
          lastReqId := reqId;
          var raw := regs.holding[targetReg];
          if !KnownSensor(SensorOf(raw)) { return false; }
          var sensor := TargetRegister(raw);
          edgeWatch := Some(Watch(sensor, WantsRising(raw), regs.discrete[sensor]));
          regs.inputs[stateReg] := StateMoving;
          regs.inputs[ackReg] := reqId;
        } else if edgeWatch.Some? {
          var watch := edgeWatch.value;
          var level := regs.discrete[watch.sensor];
          if level != watch.prev && level == watch.wantRising {
            edgeWatch := None;
            regs.inputs[stateReg] := StateReady;
          } else {
            edgeWatch := Some(watch.(prev := level));
          }
        }
      }
    }
  }

  /** The specification's whole tick: watchdog on a clock that does not wrap, fans
      mirrored, then the two zones. */
  class FakeLoop {
    const regs: RegisterFile
    const zone1: FakeZoneBlock
    const zone2: FakeZoneBlock
    const timeout: nat
    const defaultVelocity: nat
    var lastHeartbeat: nat
    var heartbeatSeenAt: nat
    var watchdogArmed: bool

    predicate Valid()
      reads this, zone1, zone2
    {
      && regs.Valid() && zone1.Valid() && zone2.Valid() && zone1 != zone2 && defaultVelocity > 0
      && zone1.stateReg == 410 && zone2.stateReg == 411 && zone1.ackReg == 413 && zone2.ackReg == 414
      && zone1.modeReg == 310 && zone1.distReg == 311 && zone1.reqIdReg == 312 && zone1.targetReg == 314
      && zone2.modeReg == 320 && zone2.distReg == 321 && zone2.reqIdReg == 322 && zone2.targetReg == 324
    }

    function Value(): FakeBoard
      requires Valid()
      reads this, zone1, zone2, regs.inputs
    {
      FakeBoard(lastHeartbeat, heartbeatSeenAt, watchdogArmed, regs.inputs[TrippedReg] != 0,
                regs.inputs[F1FanFeedbackReg], regs.inputs[F2FanFeedbackReg], zone1.Value(regs), zone2.Value(regs))
    }

    function Seen(now: nat): Scene
      requires Valid()
      reads this, zone1, zone2, regs.holding, regs.discrete
    {
      Scene(now, regs.holding[HeartbeatReg], regs.holding[F1FanReg], regs.holding[F2FanReg],
            zone1.Written(regs), zone2.Written(regs), Levels(regs), zone1.Done(now as real), zone2.Done(now as real))
    }

    constructor (timeout: nat, defaultVelocity: nat)
      requires defaultVelocity > 0
      ensures Valid() && this.timeout == timeout && this.defaultVelocity == defaultVelocity && fresh(zone1) && fresh(zone2)
      ensures fresh(regs.inputs) && fresh(regs.holding) && fresh(regs.discrete)
    {
      this.timeout, this.defaultVelocity := timeout, defaultVelocity;
      regs := new RegisterFile();
      zone1 := new FakeZoneBlock(310, 311, 312, 314, 410, 413);
      zone2 := new FakeZoneBlock(320, 321, 322, 324, 411, 414);
      lastHeartbeat, heartbeatSeenAt, watchdogArmed := 0, 0, false;
    }

    method Supervise(now: nat)
      requires Valid()
      modifies this, regs.inputs
      ensures Valid() && Value() == SupervisedFake(old(Value()), timeout, old(Seen(now)))
    {
      var hb := regs.holding[HeartbeatReg];
      if hb != lastHeartbeat {
        watchdogArmed, lastHeartbeat, heartbeatSeenAt := true, hb, now;
        regs.inputs[TrippedReg] := 0;
      } else if watchdogArmed && now - heartbeatSeenAt > timeout {
        regs.inputs[TrippedReg] := 1;
      }
    }

    method Tick(now: nat) returns (ok: bool)
      requires Valid()
      modifies this, zone1, zone2, regs.inputs
      ensures Valid()
      ensures
        var t := TickFakeBoard(old(Value()), timeout, old(Seen(now)));
        ok == t.Some? && (ok ==> Value() == t.value)
    {
      Supervise(now);
      var tripped := regs.inputs[TrippedReg] != 0;
      regs.inputs[F1FanFeedbackReg] := if tripped then 1 else regs.holding[F1FanReg];
      regs.inputs[F2FanFeedbackReg] := if tripped then 1 else regs.holding[F2FanReg];
      var velocity := if regs.holding[VelocityReg] != 0 then regs.holding[VelocityReg] else defaultVelocity;
      ok := zone1.Tick(regs, tripped, now as real, velocity);
      if ok {
        ok := zone2.Tick(regs, tripped, now as real, velocity);
      }
    }
  }

  /** The twins are wired alike: over the same registers both see the same commands and
      answer in the same places. */
  lemma WiredAlike(board: FirmwareLoop, fake: FakeLoop, now: nat, done1: bool, done2: bool)
    requires board.Valid() && fake.Valid() && board.regs == fake.regs
    ensures
      var r, s := board.Seen(now, done1, done2), fake.Seen(now);
      s == r.(eyes := s.eyes, done1 := s.done1, done2 := s.done2) && forall reg: nat :: s.eyes(reg) == r.eyes(reg)
    ensures
      var r, f := board.Value(), fake.Value();
      && r.f1Fan == f.f1Fan && r.f2Fan == f.f2Fan && r.tripped == f.tripped
      && r.z1.state == f.z1.state && r.z2.state == f.z2.state && r.z1.ack == f.z1.ack && r.z2.ack == f.z2.ack
  {
  }
}

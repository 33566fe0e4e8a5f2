/** The firmware as it runs: register arrays, zone blocks and debounced eyes updated
    in place, each method tied to the function it carries out. */
module FirmwareMachine {
  import opened Model
  import opened Firmware

  const TableSize: nat := 1024

  /** Holding registers are written by the master, the rest by the firmware. */
  class RegisterFile {
    const discrete: array<bool>
    const holding: array<nat>
    const inputs: array<nat>

    predicate Valid() {
      discrete.Length == holding.Length == inputs.Length == TableSize && holding != inputs
    }

    constructor ()
      ensures Valid() && fresh(discrete) && fresh(holding) && fresh(inputs)
    {
      discrete := new bool[TableSize](_ => false);
      holding := new nat[TableSize](_ => 0);
      inputs := new nat[TableSize](_ => 0);
    }
  }

  class ZoneBlock {
    const modeReg: nat
    const reqIdReg: nat
    const targetReg: nat
    const stateReg: nat
    const ackReg: nat
    var lastReqId: nat
    var moveActive: bool
    var edgeArmed: bool
    var edgeSensorReg: nat
    var edgeWantRising: bool
    var edgePrev: bool

    predicate Valid() {
      modeReg < TableSize && reqIdReg < TableSize && targetReg < TableSize
      && stateReg < TableSize && ackReg < TableSize && stateReg != ackReg
    }

    function Value(regs: RegisterFile): Zone
      requires Valid() && regs.Valid()
      reads this, regs.inputs
    {
      Zone(lastReqId, moveActive, edgeArmed, edgeSensorReg, edgeWantRising, edgePrev,
           regs.inputs[stateReg], regs.inputs[ackReg])
    }

    function Written(regs: RegisterFile): Command
      requires Valid() && regs.Valid()
      reads regs.holding
    {
      Command(regs.holding[modeReg], regs.holding[reqIdReg], regs.holding[targetReg])
    }

    constructor (mode: nat, reqId: nat, target: nat, state: nat, ack: nat)
      requires mode < TableSize && reqId < TableSize && target < TableSize
      requires state < TableSize && ack < TableSize && state != ack
      ensures Valid() && modeReg == mode && reqIdReg == reqId && targetReg == target && stateReg == state && ackReg == ack
      ensures lastReqId == 0 && !moveActive && !edgeArmed && edgeSensorReg == 0 && edgeWantRising && !edgePrev
    {
      modeReg, reqIdReg, targetReg, stateReg, ackReg := mode, reqId, target, state, ack;
      lastReqId, moveActive, edgeArmed, edgeSensorReg, edgeWantRising, edgePrev := 0, false, false, 0, true, false;
    }

    /** Take up a new sensor-stop request, or refuse one with an unknown target. */
    method Arm(regs: RegisterFile)
      requires Valid() && regs.Valid()
      modifies this, regs.inputs
      ensures Value(regs) ==
        (var z := old(Value(regs)).(lastReqId := old(Written(regs)).reqId, moveActive := false,
                                    wantRising := WantsRising(old(Written(regs)).target));
         if !KnownSensor(SensorOf(old(Written(regs)).target)) then z.(state := StateReady)
         else
           var reg := TargetRegister(old(Written(regs)).target);
           z.(sensor := reg, prev := regs.discrete[reg], edgeArmed := true, state := StateMoving,
              ack := old(Written(regs)).reqId))
      ensures forall i :: 0 <= i < TableSize && i != stateReg && i != ackReg ==> regs.inputs[i] == old(regs.inputs[i])
    {
      var reqId, raw := regs.holding[reqIdReg], regs.holding[targetReg];
      lastReqId, moveActive := reqId, false;
      edgeWantRising := WantsRising(raw);
      if !KnownSensor(SensorOf(raw)) {
        regs.inputs[stateReg] := StateReady;
        return;
      }
      edgeSensorReg := EyeRegister(SensorOf(raw));
      edgePrev := regs.discrete[edgeSensorReg];
      edgeArmed := true;
      regs.inputs[stateReg] := StateMoving;
      regs.inputs[ackReg] := reqId;
    }

    /** One tick of the zone; only its own STATE and ACK registers change. */
    method Tick(regs: RegisterFile, tripped: bool, complete: bool)
      requires Valid() && regs.Valid()
      requires edgeSensorReg < TableSize
      modifies this, regs.inputs
      ensures Value(regs) ==
        TickZone(old(Value(regs)), tripped, old(Written(regs)), old(Levels(regs)), complete)
      ensures edgeSensorReg < TableSize
      ensures forall i :: 0 <= i < TableSize && i != stateReg && i != ackReg ==> regs.inputs[i] == old(regs.inputs[i])
    {
      if tripped {
        moveActive, edgeArmed := false, false;
        regs.inputs[stateReg] := StateReady;
        return;
      }
      var mode, reqId := regs.holding[modeReg], regs.holding[reqIdReg];
      if mode == ModeContinuous {
        moveActive, edgeArmed := false, false;
        regs.inputs[stateReg] := StateMoving;
      } else if mode == ModeIdle {
        moveActive, edgeArmed := false, false;
        regs.inputs[stateReg] := StateReady;
      } else if mode == ModeDistance {
        if reqId != lastReqId {
          lastReqId, edgeArmed, moveActive := reqId, false, true;
          regs.inputs[stateReg] := StateMoving;
          regs.inputs[ackReg] := reqId;
        } else if moveActive && complete {
          moveActive := false;
          regs.inputs[stateReg] := StateReady;
        }
      } else if mode == ModeSensorStop {
        if reqId != lastReqId {
          Arm(regs);
        } else if edgeArmed {
          var level := regs.discrete[edgeSensorReg];
          if level != edgePrev && level == edgeWantRising {
            edgeArmed := false;
            regs.inputs[stateReg] := StateReady;
          }
          edgePrev := level;
        }
      } else {
        regs.inputs[stateReg] := StateReady;
      }
    }
  }

  /** The levels in the discrete table, every register beyond it dark. */
  function Levels(regs: RegisterFile): EyeLevels
    requires regs.Valid()
    reads regs.discrete
  {
    var table := regs.discrete[..];
    (reg: nat) => reg < |table| && table[reg]
  }

  const HeartbeatReg: nat := 330
  const F1FanReg: nat := 301
  const F2FanReg: nat := 302
  const F1FanFeedbackReg: nat := 401
  const F2FanFeedbackReg: nat := 402
  const TrippedReg: nat := 412

  /** The whole loop body after the eyes have been read: watchdog, fans, two zones. */
  class FirmwareLoop {
    const regs: RegisterFile
    const zone1: ZoneBlock
    const zone2: ZoneBlock
    const timeout: nat
    var lastHeartbeat: nat
    var heartbeatSeenAt: nat
    var watchdogArmed: bool

    predicate Valid()
      reads this, zone1, zone2
    {
      && regs.Valid() && zone1.Valid() && zone2.Valid() && zone1 != zone2
      && zone1.stateReg == 410 && zone2.stateReg == 411 && zone1.ackReg == 413 && zone2.ackReg == 414
      && zone1.modeReg == 310 && zone1.reqIdReg == 312 && zone1.targetReg == 314
      && zone2.modeReg == 320 && zone2.reqIdReg == 322 && zone2.targetReg == 324
      && zone1.edgeSensorReg < TableSize && zone2.edgeSensorReg < TableSize
      && heartbeatSeenAt < Wrap
    }

    function Value(): Board
      requires Valid()
      reads this, zone1, zone2, regs.inputs
    {
      Board(lastHeartbeat, heartbeatSeenAt, watchdogArmed, regs.inputs[TrippedReg] != 0,
            regs.inputs[F1FanFeedbackReg], regs.inputs[F2FanFeedbackReg], zone1.Value(regs), zone2.Value(regs))
    }

    function Seen(now: nat, done1: bool, done2: bool): Scene
      requires Valid()
      reads this, zone1, zone2, regs.holding, regs.discrete
    {
      Scene(now, regs.holding[HeartbeatReg], regs.holding[F1FanReg], regs.holding[F2FanReg],
            zone1.Written(regs), zone2.Written(regs), Levels(regs), done1, done2)
    }

    constructor (timeout: nat)
      ensures Valid() && this.timeout == timeout && fresh(zone1) && fresh(zone2)
      ensures fresh(regs.inputs) && fresh(regs.holding) && fresh(regs.discrete)
    {
      this.timeout := timeout;
      regs := new RegisterFile();
      zone1 := new ZoneBlock(310, 312, 314, 410, 413);
      zone2 := new ZoneBlock(320, 322, 324, 411, 414);
      lastHeartbeat, heartbeatSeenAt, watchdogArmed := 0, 0, false;
    }

    /** The heartbeat check against the wrapping millisecond counter. */
    method Supervise(now: nat)
      requires Valid()
      modifies this, regs.inputs
      ensures Valid() && Value() == Supervised(old(Value()), timeout, old(Seen(now, false, false)))
    {
      var hb, nowMs := regs.holding[HeartbeatReg], now % Wrap;
      if hb != lastHeartbeat {
        watchdogArmed, lastHeartbeat, heartbeatSeenAt := true, hb, nowMs;
        regs.inputs[TrippedReg] := 0;
      } else if watchdogArmed && Since(nowMs, heartbeatSeenAt) > timeout {
        regs.inputs[TrippedReg] := 1;
      }
    }

    /** Fans on after a trip, otherwise as commanded. */
    method Fans()
      requires Valid()
      modifies regs.inputs
      ensures Valid()
      ensures
        var b := old(Value());
        Value() == b.(f1Fan := FanFeedback(b.tripped, regs.holding[F1FanReg]), f2Fan := FanFeedback(b.tripped, regs.holding[F2FanReg]))
    {
      var tripped := regs.inputs[TrippedReg] != 0;
      regs.inputs[F1FanFeedbackReg] := if tripped || regs.holding[F1FanReg] != 0 then 1 else 0;
      regs.inputs[F2FanFeedbackReg] := if tripped || regs.holding[F2FanReg] != 0 then 1 else 0;
    }

    method Tick(now: nat, done1: bool, done2: bool)
      requires Valid()
      modifies this, zone1, zone2, regs.inputs
      ensures Valid() && Value() == TickBoard(old(Value()), timeout, old(Seen(now, done1, done2)))
    {
      Supervise(now);
      Fans();
      var tripped := regs.inputs[TrippedReg] != 0;
      zone1.Tick(regs, tripped, done1);
      zone2.Tick(regs, tripped, done2);
    }
  }

  /** The register map a master relies on: what each command and each answer is read from. */
  lemma RegistersAre(board: FirmwareLoop, now: nat, done1: bool, done2: bool)
    requires board.Valid()
    ensures
      var h, s := board.regs.holding, board.Seen(now, done1, done2);
      && s.heartbeat == h[330] && s.f1Fan == h[301] && s.f2Fan == h[302]
      && s.z1 == Command(h[310], h[312], h[314]) && s.z2 == Command(h[320], h[322], h[324])
    ensures
      var i, b := board.regs.inputs, board.Value();
      && b.f1Fan == i[401] && b.f2Fan == i[402] && b.tripped == (i[412] != 0)
      && b.z1.state == i[410] && b.z2.state == i[411] && b.z1.ack == i[413] && b.z2.ack == i[414]
  {
  }
}

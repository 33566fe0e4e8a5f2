/** The controller firmware's tick and its executable specification, as two state
    machines over the same registers: when they agree, and exactly when they stop. */
module Firmware {
  import opened Model

  // -------------------------------------------------------------- registers

  const ModeDistance: nat := 0
  const ModeContinuous: nat := 2
  const ModeIdle: nat := 3
  const ModeSensorStop: nat := 4

  const StateReady: nat := 1
  const StateMoving: nat := 2

  const FallingFlag: nat := 8

  /** What the master has written for one zone. */
  datatype Command = Command(mode: nat, reqId: nat, target: nat)

  /** Eye levels by register. */
  type EyeLevels = nat -> bool

  /** A target register is a sensor code, or a sensor code plus the falling flag. */
  function SensorOf(target: nat): nat {
    if target / 8 % 2 == 1 then target - 8 else target
  }

  /** The discrete input that holds a sensor's level. */
  function EyeRegister(code: nat): nat {
    if code == 1 then 403 else if code == 2 then 404 else if code == 3 then 405 else if code == 4 then 408 else 407
  }

  function TargetRegister(target: nat): nat {
    EyeRegister(SensorOf(target))
  }

  predicate WantsRising(target: nat) {
    target / 8 % 2 == 0
  }

  predicate KnownSensor(code: nat) {
    1 <= code <= 5
  }

  // ------------------------------------------------------------ the firmware

  datatype Zone = Zone(
    lastReqId: nat,
    moveActive: bool,
    edgeArmed: bool,
    sensor: nat,
    wantRising: bool,
    prev: bool,
    state: nat,
    ack: nat)

  function TickZone(z: Zone, tripped: bool, c: Command, eyes: EyeLevels, complete: bool): Zone {
    if tripped then z.(moveActive := false, edgeArmed := false, state := StateReady)
    else if c.mode == ModeContinuous then z.(moveActive := false, edgeArmed := false, state := StateMoving)
    else if c.mode == ModeIdle then z.(moveActive := false, edgeArmed := false, state := StateReady)
    else if c.mode == ModeDistance then
      if c.reqId != z.lastReqId then
        z.(lastReqId := c.reqId, edgeArmed := false, moveActive := true, state := StateMoving, ack := c.reqId)
      else if z.moveActive && complete then z.(moveActive := false, state := StateReady)
      else z
    else if c.mode == ModeSensorStop then
      if c.reqId != z.lastReqId then
        var heard := z.(lastReqId := c.reqId, moveActive := false, wantRising := WantsRising(c.target));
        if !KnownSensor(SensorOf(c.target)) then heard.(state := StateReady)
        else
          heard.(sensor := TargetRegister(c.target), prev := eyes(TargetRegister(c.target)), edgeArmed := true,
                 state := StateMoving, ack := c.reqId)
      else if z.edgeArmed then
        var level := eyes(z.sensor);
        if level != z.prev && level == z.wantRising
        then z.(edgeArmed := false, state := StateReady, prev := level)
        else z.(prev := level)
      else z
    else z.(state := StateReady)
  }

  // ------------------------------------------- the executable specification

  datatype Watch = Watch(sensor: nat, wantRising: bool, prev: bool)

  datatype FakeZone = FakeZone(lastReqId: nat, moving: bool, watch: Option<Watch>, state: nat, ack: nat)

  /** None where the original raises on an unknown target. */
  function TickFake(z: FakeZone, tripped: bool, c: Command, eyes: EyeLevels, complete: bool): Option<FakeZone> {
    if tripped then Some(z.(moving := false, watch := None, state := StateReady))
    else if c.mode == ModeContinuous then Some(z.(moving := false, watch := None, state := StateMoving))
    else if c.mode == ModeIdle then Some(z.(moving := false, watch := None, state := StateReady))
    else if c.mode == ModeDistance then
      if c.reqId != z.lastReqId then
        Some(z.(lastReqId := c.reqId, moving := true, state := StateMoving, ack := c.reqId))
      else if z.moving && complete then Some(z.(moving := false, state := StateReady))
      else Some(z)
    else if c.mode == ModeSensorStop then
      if c.reqId != z.lastReqId then
        if !KnownSensor(SensorOf(c.target)) then None
        else
          Some(z.(lastReqId := c.reqId,
                  watch := Some(Watch(TargetRegister(c.target), WantsRising(c.target), eyes(TargetRegister(c.target)))),
                  state := StateMoving, ack := c.reqId))
      else if z.watch.Some? then
        var level := eyes(z.watch.value.sensor);
        if level != z.watch.value.prev && level == z.watch.value.wantRising
        then Some(z.(watch := None, state := StateReady))
        else Some(z.(watch := Some(z.watch.value.(prev := level))))
      else Some(z)
    else Some(z)
  }

  // ----------------------------------------------------------- zone by zone

  /** Same registers, same move in flight. */
  predicate Agree(r: Zone, f: FakeZone) {
    && r.lastReqId == f.lastReqId && r.state == f.state && r.ack == f.ack
    && r.moveActive == f.moving
    && f.watch == if r.edgeArmed then Some(Watch(r.sensor, r.wantRising, r.prev)) else None
  }

  predicate Recognised(r: Zone, tripped: bool, c: Command) {
    !tripped && c.reqId != r.lastReqId && (c.mode == ModeDistance || c.mode == ModeSensorStop)
  }

  /** Commands both twins understand. */
  predicate Understood(r: Zone, tripped: bool, c: Command) {
    tripped ||
    (c.mode in {ModeDistance, ModeContinuous, ModeIdle, ModeSensorStop}
     && (c.mode == ModeSensorStop && c.reqId != r.lastReqId ==> KnownSensor(SensorOf(c.target))))
  }

  /** A move of one kind is only taken up when none of the other kind is in flight. */
  predicate Settled(r: Zone, tripped: bool, c: Command) {
    Recognised(r, tripped, c) ==> if c.mode == ModeDistance then !r.edgeArmed else !r.moveActive
  }

  lemma TwinTick(r: Zone, f: FakeZone, tripped: bool, c: Command, eyes: EyeLevels, complete: bool)
    requires Agree(r, f) && Understood(r, tripped, c)
    ensures TickFake(f, tripped, c, eyes, complete).Some?
    ensures Agree(TickZone(r, tripped, c, eyes, complete), TickFake(f, tripped, c, eyes, complete).value)
      <==> Settled(r, tripped, c)
  {
  }

  /** The command that exposes a swap, the old kind of move again under the new id, with
      the level the armed edge waits for away from its target and then at it. */
  function Exposing(r: Zone, c: Command): (Command, EyeLevels, EyeLevels) {
    if c.mode == ModeDistance then (c.(mode := ModeSensorStop), code => !r.wantRising, code => r.wantRising)
    else (c.(mode := ModeDistance), code => false, code => false)
  }

  /** A swap mid-move is not a matter of bookkeeping: whatever the twins had read, two
      further ticks show different STATE registers. */
  lemma SwapShows(r: Zone, f: FakeZone, c: Command, eyes: EyeLevels, complete: bool)
    requires Agree(r, f) && Understood(r, false, c) && !Settled(r, false, c)
    ensures
      var (d, away, back) := Exposing(r, c);
      var r1, f1 := TickZone(r, false, c, eyes, complete), TickFake(f, false, c, eyes, complete).value;
      && r1.state == f1.state && TickFake(f1, false, d, away, false).Some?
      && var r2, f2 := TickZone(r1, false, d, away, false), TickFake(f1, false, d, away, false).value;
      && r2.state == f2.state && TickFake(f2, false, d, back, true).Some?
      && TickZone(r2, false, d, back, true).state != TickFake(f2, false, d, back, true).value.state
  {
  }

  /** A mode neither twin names: the firmware stops the belt and reports READY, the
      specification leaves the state alone, so they part unless it was READY. */
  lemma UnknownMode(r: Zone, f: FakeZone, c: Command, eyes: EyeLevels, complete: bool)
    requires Agree(r, f)
    requires c.mode !in {ModeDistance, ModeContinuous, ModeIdle, ModeSensorStop}
    ensures TickFake(f, false, c, eyes, complete).Some?
    ensures TickZone(r, false, c, eyes, complete).state == TickFake(f, false, c, eyes, complete).value.state
      <==> r.state == StateReady
  {
  }

  /** An unknown target: the firmware refuses without an ack, the specification dies. */
  lemma UnknownTarget(r: Zone, f: FakeZone, c: Command, eyes: EyeLevels, complete: bool)
    requires Agree(r, f) && c.mode == ModeSensorStop && c.reqId != r.lastReqId
    ensures TickFake(f, false, c, eyes, complete).None? <==> !KnownSensor(SensorOf(c.target))
    ensures !KnownSensor(SensorOf(c.target)) ==>
      var t := TickZone(r, false, c, eyes, complete);
      t.state == StateReady && t.ack == r.ack && t.lastReqId == c.reqId && !t.moveActive
  {
  }

  // ---------------------------------------------------------- the whole tick

  /** A 32-bit millisecond counter. */
  const Wrap: nat := 0x1_0000_0000

  /** Everything one tick sees. Completion of the two distance moves is a shared
      oracle; `now` is the true time in milliseconds. */
  datatype Scene = Scene(
    now: nat, heartbeat: nat, f1Fan: nat, f2Fan: nat, z1: Command, z2: Command,
    eyes: EyeLevels, done1: bool, done2: bool)

  datatype Board = Board(
    lastHeartbeat: nat, seenAt: nat, armed: bool, tripped: bool, f1Fan: nat, f2Fan: nat, z1: Zone, z2: Zone)

  datatype FakeBoard = FakeBoard(
    lastHeartbeat: nat, seenAt: nat, armed: bool, tripped: bool, f1Fan: nat, f2Fan: nat, z1: FakeZone, z2: FakeZone)

  /** Milliseconds between two readings of the wrapping counter. */
  function Since(now32: nat, then32: nat): nat
    requires now32 < Wrap && then32 < Wrap
  {
    if now32 >= then32 then now32 - then32 else now32 + Wrap - then32
  }

  function FanFeedback(tripped: bool, command: nat): nat {
    if tripped || command != 0 then 1 else 0
  }

  function Supervised(b: Board, timeout: nat, s: Scene): Board
    requires b.seenAt < Wrap
  {
    if s.heartbeat != b.lastHeartbeat then
      b.(armed := true, lastHeartbeat := s.heartbeat, seenAt := s.now % Wrap, tripped := false)
    else if b.armed && Since(s.now % Wrap, b.seenAt) > timeout then b.(tripped := true)
    else b
  }

  function TickBoard(b: Board, timeout: nat, s: Scene): Board
    requires b.seenAt < Wrap
  {
    var w := Supervised(b, timeout, s);
    w.(f1Fan := FanFeedback(w.tripped, s.f1Fan), f2Fan := FanFeedback(w.tripped, s.f2Fan),
       z1 := TickZone(w.z1, w.tripped, s.z1, s.eyes, s.done1),
       z2 := TickZone(w.z2, w.tripped, s.z2, s.eyes, s.done2))
  }

  function SupervisedFake(b: FakeBoard, timeout: nat, s: Scene): FakeBoard {
    if s.heartbeat != b.lastHeartbeat then
      b.(armed := true, lastHeartbeat := s.heartbeat, seenAt := s.now, tripped := false)
    else if b.armed && s.now - b.seenAt > timeout then b.(tripped := true)
    else b
  }

  function TickFakeBoard(b: FakeBoard, timeout: nat, s: Scene): Option<FakeBoard> {
    var w := SupervisedFake(b, timeout, s);
    var z1, z2 := TickFake(w.z1, w.tripped, s.z1, s.eyes, s.done1), TickFake(w.z2, w.tripped, s.z2, s.eyes, s.done2);
    if z1.None? || z2.None? then None
    else
      Some(w.(f1Fan := if w.tripped then 1 else s.f1Fan, f2Fan := if w.tripped then 1 else s.f2Fan,
              z1 := z1.value, z2 := z2.value))
  }

  /** Register for register, and the same supervision state. */
  predicate BoardsAgree(r: Board, f: FakeBoard) {
    && r.seenAt < Wrap && r.seenAt == f.seenAt % Wrap
    && r.lastHeartbeat == f.lastHeartbeat && r.armed == f.armed && r.tripped == f.tripped
    && r.f1Fan == f.f1Fan && r.f2Fan == f.f2Fan
    && Agree(r.z1, f.z1) && Agree(r.z2, f.z2)
  }

  lemma WrapsTo(now: nat, seen: nat)
    requires seen <= now
    ensures Since(now % Wrap, seen % Wrap) == (now - seen) % Wrap
  {
  }

  /** The watchdogs part exactly when a silence long enough to trip looks short
      through the wrapped counter. */
  lemma WatchdogsAgree(r: Board, f: FakeBoard, timeout: nat, s: Scene)
    requires BoardsAgree(r, f) && f.seenAt <= s.now && !f.tripped
    ensures Supervised(r, timeout, s).tripped == SupervisedFake(f, timeout, s).tripped
      <==> !(s.heartbeat == f.lastHeartbeat && f.armed && s.now - f.seenAt > timeout && (s.now - f.seenAt) % Wrap <= timeout)
  {
    WrapsTo(s.now, f.seenAt);
  }

  // ------------------------------------------------------------- whole runs

  /** The firmware's board after the first k scenes. */
  function After(b: Board, timeout: nat, scenes: seq<Scene>, k: nat): Board
    requires b.seenAt < Wrap && k <= |scenes|
    ensures After(b, timeout, scenes, k).seenAt < Wrap
  {
    if k == 0 then b else TickBoard(After(b, timeout, scenes, k - 1), timeout, scenes[k - 1])
  }

  function AfterFake(f: FakeBoard, timeout: nat, scenes: seq<Scene>, k: nat): Option<FakeBoard>
    requires k <= |scenes|
  {
    if k == 0 then Some(f)
    else
      var g := AfterFake(f, timeout, scenes, k - 1);
      if g.Some? then TickFakeBoard(g.value, timeout, scenes[k - 1]) else None
  }

  /** What the twins are promised for one tick: fan commands of 0 or 1, commands both
      understand, and one kind of move finished before the other starts. */
  predicate Civil(b: Board, timeout: nat, s: Scene)
    requires b.seenAt < Wrap
  {
    var w := Supervised(b, timeout, s);
    && s.f1Fan <= 1 && s.f2Fan <= 1
    && Understood(w.z1, w.tripped, s.z1) && Understood(w.z2, w.tripped, s.z2)
    && Settled(w.z1, w.tripped, s.z1) && Settled(w.z2, w.tripped, s.z2)
  }

  /** Time moves forward, and no single pause between ticks is long enough to hide a
      timeout behind the wrap. */
  predicate Timely(start: nat, timeout: nat, scenes: seq<Scene>) {
    forall k :: 0 <= k < |scenes| ==>
      var last := if k == 0 then start else scenes[k - 1].now;
      last <= scenes[k].now < last + Wrap - timeout
  }

  function LastTick(start: nat, scenes: seq<Scene>, k: nat): nat
    requires k <= |scenes|
  {
    if k == 0 then start else scenes[k - 1].now
  }

  /** An untripped watchdog has heard from the master recently. */
  predicate Heard(f: FakeBoard, last: nat, timeout: nat) {
    f.seenAt <= last && (f.armed && !f.tripped ==> last - f.seenAt <= timeout)
  }

  lemma SupervisionAgrees(r: Board, f: FakeBoard, timeout: nat, s: Scene, last: nat)
    requires BoardsAgree(r, f) && Heard(f, last, timeout) && last <= s.now < last + Wrap - timeout
    ensures BoardsAgree(Supervised(r, timeout, s), SupervisedFake(f, timeout, s))
    ensures Heard(SupervisedFake(f, timeout, s), s.now, timeout)
  {
    if !f.tripped {
      WatchdogsAgree(r, f, timeout, s);
    }
  }

  lemma BoardTick(r: Board, f: FakeBoard, timeout: nat, s: Scene, last: nat)
    requires BoardsAgree(r, f) && Heard(f, last, timeout) && last <= s.now < last + Wrap - timeout
    requires Civil(r, timeout, s)
    ensures TickFakeBoard(f, timeout, s).Some?
    ensures BoardsAgree(TickBoard(r, timeout, s), TickFakeBoard(f, timeout, s).value)
    ensures Heard(TickFakeBoard(f, timeout, s).value, s.now, timeout)
  {
    SupervisionAgrees(r, f, timeout, s, last);
    var w, v := Supervised(r, timeout, s), SupervisedFake(f, timeout, s);
    TwinTick(w.z1, v.z1, w.tripped, s.z1, s.eyes, s.done1);
    TwinTick(w.z2, v.z2, w.tripped, s.z2, s.eyes, s.done2);
  }

  ghost predicate AllCivil(r: Board, timeout: nat, scenes: seq<Scene>)
    requires r.seenAt < Wrap
  {
    forall i {:trigger CivilAt(r, timeout, scenes, i)} :: 0 <= i < |scenes| ==> CivilAt(r, timeout, scenes, i)
  }

  predicate CivilAt(r: Board, timeout: nat, scenes: seq<Scene>, i: int)
    requires r.seenAt < Wrap && 0 <= i < |scenes|
  {
    Civil(After(r, timeout, scenes, i), timeout, scenes[i])
  }

  /** What holds after k scenes. */
  predicate InStep(r: Board, f: FakeBoard, timeout: nat, scenes: seq<Scene>, start: nat, k: nat)
    requires r.seenAt < Wrap && k <= |scenes|
  {
    var g := AfterFake(f, timeout, scenes, k);
    g.Some? && BoardsAgree(After(r, timeout, scenes, k), g.value) && Heard(g.value, LastTick(start, scenes, k), timeout)
  }

  lemma OneSceneMore(r: Board, f: FakeBoard, timeout: nat, scenes: seq<Scene>, start: nat, k: nat)
    requires r.seenAt < Wrap && k < |scenes| && InStep(r, f, timeout, scenes, start, k)
    requires CivilAt(r, timeout, scenes, k)
    requires LastTick(start, scenes, k) <= scenes[k].now < LastTick(start, scenes, k) + Wrap - timeout
    ensures InStep(r, f, timeout, scenes, start, k + 1)
  {
    BoardTick(After(r, timeout, scenes, k), AfterFake(f, timeout, scenes, k).value, timeout, scenes[k],
              LastTick(start, scenes, k));
  }

  /** The firmware refines its executable specification: for every stream of writes
      and eye levels within the terms above, STATE, ACK, trip and fan feedback are
      equal after every tick. */
  lemma {:induction false} FirmwareRefinesFake(r: Board, f: FakeBoard, timeout: nat, scenes: seq<Scene>, start: nat, k: nat)
    requires BoardsAgree(r, f) && Heard(f, start, timeout) && Timely(start, timeout, scenes) && k <= |scenes|
    requires AllCivil(r, timeout, scenes)
    ensures InStep(r, f, timeout, scenes, start, k)
  {
    if k > 0 {
      FirmwareRefinesFake(r, f, timeout, scenes, start, k - 1);
      assert CivilAt(r, timeout, scenes, k - 1);
      OneSceneMore(r, f, timeout, scenes, start, k - 1);
    }
  }

  // ------------------------------------------------------------ one zone's tick

  /** A request the zone has not seen, for a move it can make. */
  predicate TakesUp(z: Zone, c: Command) {
    c.reqId != z.lastReqId && (c.mode == ModeDistance || (c.mode == ModeSensorStop && KnownSensor(SensorOf(c.target))))
  }

  /** The wanted change of the armed eye. */
  predicate EdgeShows(z: Zone, eyes: EyeLevels) {
    z.edgeArmed && eyes(z.sensor) != z.prev && eyes(z.sensor) == z.wantRising
  }

  /** What ends the move a zone is making. */
  predicate Ends(z: Zone, c: Command, eyes: EyeLevels, complete: bool) {
    if c.mode == ModeDistance then z.moveActive && complete else EdgeShows(z, eyes)
  }

  predicate Moves(c: Command) {
    c.mode == ModeDistance || c.mode == ModeSensorStop
  }

  /** The registers a zone shows after one tick, and whether anything in it is still
      under way. An ack answers exactly the request taken up. A trip, an idle or unknown
      mode and a refused request stop the belt; running, a taken request and a move not
      yet ended keep it moving; and a move that ends shows READY once. */
  lemma ZoneAnswers(z: Zone, tripped: bool, c: Command, eyes: EyeLevels, complete: bool)
    ensures
      var t := TickZone(z, tripped, c, eyes, complete);
      var isNew := c.reqId != z.lastReqId;
      && t.ack == (if !tripped && TakesUp(z, c) then c.reqId else z.ack)
      && t.lastReqId == (if !tripped && Moves(c) then c.reqId else z.lastReqId)
      && (tripped || c.mode == ModeIdle ==> AtRest(t))
      && (!tripped && c.mode == ModeContinuous ==> t.state == StateMoving && !t.moveActive && !t.edgeArmed)
      && (!tripped && c.mode != ModeIdle && c.mode != ModeContinuous && !Moves(c) ==> t.state == StateReady)
      && (!tripped && Moves(c) && isNew ==> t.state == if TakesUp(z, c) then StateMoving else StateReady)
      && (!tripped && Moves(c) && !isNew ==> t.state == if Ends(z, c, eyes, complete) then StateReady else z.state)
      && (!tripped && Moves(c) && !isNew && Ends(z, c, eyes, complete) ==>
            if c.mode == ModeDistance then !t.moveActive else !t.edgeArmed)
  {
  }

  // ---------------------------------------------------------- the watchdog

  /** Nothing in a zone moves or waits for an edge. */
  predicate AtRest(z: Zone) {
    z.state == StateReady && !z.moveActive && !z.edgeArmed
  }

  /** The watchdog after one tick: any change of the heartbeat arms it and clears a trip;
      without one it trips exactly when it is armed and the silence is too long, and a
      trip stays. Tripped, the board stands still with both fans on; otherwise the fans
      follow their commands. */
  lemma WatchdogAnswers(b: Board, timeout: nat, s: Scene)
    requires b.seenAt < Wrap
    ensures
      var t := TickBoard(b, timeout, s);
      var beat := s.heartbeat != b.lastHeartbeat;
      && t.lastHeartbeat == s.heartbeat && t.armed == (b.armed || beat)
      && t.seenAt == (if beat then s.now % Wrap else b.seenAt)
      && (t.tripped <==> !beat && (b.tripped || (b.armed && Since(s.now % Wrap, b.seenAt) > timeout)))
      && (t.tripped ==> AtRest(t.z1) && AtRest(t.z2) && t.f1Fan == 1 && t.f2Fan == 1)
      && (!t.tripped ==> (t.f1Fan == 1 <==> s.f1Fan != 0) && (t.f2Fan == 1 <==> s.f2Fan != 0) && t.f1Fan <= 1 && t.f2Fan <= 1)
  {
  }

  /** The master has said nothing in these scenes. */
  predicate Silent(b: Board, scenes: seq<Scene>, k: nat)
    requires k <= |scenes|
  {
    forall i :: 0 <= i < k ==> scenes[i].heartbeat == b.lastHeartbeat
  }

  /** A dead master stops the line: silent past the timeout, an armed board has tripped
      and stands still with its fans on, at every tick until it is heard again. */
  lemma {:induction false} SilenceStopsTheBoard(b: Board, timeout: nat, scenes: seq<Scene>, start: nat, k: nat)
    requires b.seenAt < Wrap && b.armed && b.seenAt == start % Wrap && 0 < k <= |scenes| && Silent(b, scenes, k)
    requires exists i :: 0 <= i < k && start <= scenes[i].now < start + Wrap && scenes[i].now - start > timeout
    ensures
      var t := After(b, timeout, scenes, k);
      t.tripped && AtRest(t.z1) && AtRest(t.z2) && t.f1Fan == 1 && t.f2Fan == 1
  {
    var before, s := After(b, timeout, scenes, k - 1), scenes[k - 1];
    SilentStays(b, timeout, scenes, k - 1);
    WatchdogAnswers(before, timeout, s);
    if start <= s.now < start + Wrap && s.now - start > timeout {
      WrapsTo(s.now, start);
    } else {
      var i :| 0 <= i < k && start <= scenes[i].now < start + Wrap && scenes[i].now - start > timeout;
      SilenceStopsTheBoard(b, timeout, scenes, start, k - 1);
    }
  }

  lemma {:induction false} SilentStays(b: Board, timeout: nat, scenes: seq<Scene>, k: nat)
    requires b.seenAt < Wrap && k <= |scenes| && Silent(b, scenes, k) && b.armed
    ensures
      var t := After(b, timeout, scenes, k);
      t.seenAt == b.seenAt && t.armed && t.lastHeartbeat == b.lastHeartbeat
  {
    if k > 0 {
      SilentStays(b, timeout, scenes, k - 1);
      WatchdogAnswers(After(b, timeout, scenes, k - 1), timeout, scenes[k - 1]);
    }
  }

  // --------------------------------------------------------------- debounce

  /** The registers of one eye; `since` is the wrapping millisecond counter. */
  datatype Debounced = Debounced(stable: bool, candidate: bool, since: nat)

  function Update(d: Debounced, raw: bool, now: nat, hold: nat): Debounced
    requires d.since < Wrap
  {
    if raw != d.candidate then d.(candidate := raw, since := now % Wrap)
    else if raw != d.stable && Since(now % Wrap, d.since) >= hold then d.(stable := raw)
    else d
  }

  datatype Sample = Sample(raw: bool, now: nat)

  predicate Clocked(samples: seq<Sample>) {
    forall i, k :: 0 <= i < k < |samples| ==> samples[i].now <= samples[k].now
  }

  function Debounce(d: Debounced, samples: seq<Sample>, hold: nat, k: nat): (r: Debounced)
    requires k <= |samples| && d.since < Wrap
    ensures r.since < Wrap
  {
    if k == 0 then d else Update(Debounce(d, samples, hold, k - 1), samples[k - 1].raw, samples[k - 1].now, hold)
  }

  /** The counter shows the low bits of some moment, and since that moment the raw
      level has read nothing but the candidate. */
  lemma {:induction false} CandidateHeld(d: Debounced, samples: seq<Sample>, hold: nat, start: nat, k: nat)
    returns (moment: nat)
    requires k <= |samples| && Clocked(samples) && d.since == start % Wrap
    requires forall m :: 0 <= m < |samples| ==> start <= samples[m].now
    ensures
      var c := Debounce(d, samples, hold, k);
      && c.since == moment % Wrap && moment <= (if k == 0 then start else samples[k - 1].now)
      && forall m :: 0 <= m < k && samples[m].now > moment ==> samples[m].raw == c.candidate
  {
    if k == 0 {
      moment := start;
    } else {
      moment := CandidateHeld(d, samples, hold, start, k - 1);
      if samples[k - 1].raw != Debounce(d, samples, hold, k - 1).candidate {
        moment := samples[k - 1].now;
      }
    }
  }

  /** Noise never stops a belt, however often the counter wraps: the debounced level
      flips at a sample only if every sample of the last `hold` milliseconds read the
      new level. */
  lemma FlipNeedsHold(d: Debounced, samples: seq<Sample>, hold: nat, start: nat, k: nat)
    requires 0 < k <= |samples| && Clocked(samples) && d.since == start % Wrap
    requires forall m :: 0 <= m < |samples| ==> start <= samples[m].now
    requires Debounce(d, samples, hold, k).stable != Debounce(d, samples, hold, k - 1).stable
    ensures forall m :: 0 <= m < k && samples[m].now > samples[k - 1].now - hold ==>
      samples[m].raw == Debounce(d, samples, hold, k).stable
  {
    var moment := CandidateHeld(d, samples, hold, start, k - 1);
    var now := samples[k - 1].now;
    WrapsTo(now, moment);
    RemainderIsLess(now - moment, Wrap);
    assert now - moment >= hold;
  }

  lemma RemainderIsLess(x: nat, n: nat)
    requires n > 0
    ensures x % n <= x
  {
  }

  lemma {:induction false} CandidateStays(d: Debounced, samples: seq<Sample>, hold: nat, m: nat, k: nat, v: bool)
    requires m < k <= |samples| && d.since < Wrap && Debounce(d, samples, hold, m).candidate != v
    requires forall i :: m <= i < k ==> samples[i].raw == v
    ensures
      var c := Debounce(d, samples, hold, k);
      c.candidate == v && c.since == samples[m].now % Wrap
    decreases k - m
  {
    if k > m + 1 {
      CandidateStays(d, samples, hold, m, k - 1, v);
    }
  }

  /** A level that holds is not missed: read without a break from one sample to another at
      least `hold` milliseconds on, with the counter wrapping no more than once between
      them, it is the debounced level. */
  lemma HeldLevelFlips(d: Debounced, samples: seq<Sample>, hold: nat, m: nat, k: nat, v: bool)
    requires m + 1 < k <= |samples| && d.since < Wrap && Debounce(d, samples, hold, m).candidate != v
    requires forall i :: m <= i < k ==> samples[i].raw == v
    requires hold <= samples[k - 1].now - samples[m].now < Wrap
    ensures Debounce(d, samples, hold, k).stable == v
  {
    CandidateStays(d, samples, hold, m, k - 1, v);
    WrapsTo(samples[k - 1].now, samples[m].now);
  }
}

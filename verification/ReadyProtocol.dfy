/** The request-id and ack protocol between the master's move calls and the
    firmware's ticks, in every interleaving: a READY the master acts on is never one
    left over from before its own move. */
module ReadyProtocol {
  import opened Model
  import opened Firmware

  // ------------------------------------------------------------ the machine

  datatype Kind = Distance | UntilEdge(target: nat)

  /** Where a move call, followed by the wait for READY, has got to. */
  datatype Pc = SetTarget | SetMode | SetRequest | AwaitAck | AwaitReady | Returned

  datatype Cause = Tripped | Stopped | Finished | EdgeSeen

  /** What the outside world did to the requested move, told without looking at the
      zone: whether a tick has taken the request up, the levels its eye has shown
      since, and the first thing that may end it. */
  datatype Tale = Tale(running: bool, seen: seq<bool>, cause: Option<Cause>)

  datatype World = World(zone: Zone, regs: Command, pc: Pc, kind: Kind, id: nat, tale: Tale)

  datatype Event =
    | FirmwareTick(tripped: bool, eyes: EyeLevels, complete: bool)
    | ClientStep
    | OtherMode(mode: nat)

  function ModeOf(kind: Kind): nat {
    if kind.Distance? then ModeDistance else ModeSensorStop
  }

  predicate Takes(kind: Kind) {
    kind.UntilEdge? ==> KnownSensor(SensorOf(kind.target))
  }

  function ClientStepped(w: World): World {
    match w.pc
    case SetTarget => w.(regs := if w.kind.UntilEdge? then w.regs.(target := w.kind.target) else w.regs, pc := SetMode)
    case SetMode => w.(regs := w.regs.(mode := ModeOf(w.kind)), pc := SetRequest)
    case SetRequest => w.(regs := w.regs.(reqId := w.id), pc := AwaitAck)
    case AwaitAck => if w.zone.ack == w.id then w.(pc := AwaitReady) else w
    case AwaitReady => if w.zone.state == StateReady then w.(pc := Returned) else w
    case Returned => w
  }

  /** The latest level is a change to the wanted one. */
  predicate EndsInEdge(seen: seq<bool>, rising: bool) {
    |seen| >= 2 && seen[|seen| - 1] != seen[|seen| - 2] && seen[|seen| - 1] == rising
  }

  /** The first change to the wanted level since arming, never the level at arming. */
  predicate IsFirstEdge(seen: seq<bool>, rising: bool) {
    EndsInEdge(seen, rising) && forall k :: 2 <= k < |seen| ==> !EndsInEdge(seen[..k], rising)
  }

  function Told(w: World, tripped: bool, eyes: EyeLevels, complete: bool): Tale {
    var t := w.tale;
    if !t.running then
      if !tripped && w.regs.reqId == w.id && w.regs.mode == ModeOf(w.kind) && Takes(w.kind)
      then Tale(true, if w.kind.UntilEdge? then [eyes(TargetRegister(w.kind.target))] else [], None)
      else t
    else if t.cause.Some? then t
    else if tripped then t.(cause := Some(Tripped))
    else if w.regs.mode == ModeContinuous then t
    else if w.regs.mode != ModeOf(w.kind) then t.(cause := Some(Stopped))
    else if w.kind.Distance? then if complete then t.(cause := Some(Finished)) else t
    else
      var seen := t.seen + [eyes(TargetRegister(w.kind.target))];
      t.(seen := seen, cause := if EndsInEdge(seen, WantsRising(w.kind.target)) then Some(EdgeSeen) else None)
  }

  function Stepped(w: World, e: Event): World {
    match e
    case FirmwareTick(tripped, eyes, complete) =>
      w.(zone := TickZone(w.zone, tripped, w.regs, eyes, complete), tale := Told(w, tripped, eyes, complete))
    case ClientStep => ClientStepped(w)
    case OtherMode(mode) => w.(regs := w.regs.(mode := mode))
  }

  /** Another caller can only set a zone running or idle it. */
  predicate Possible(e: Event) {
    e.OtherMode? ==> e.mode == ModeContinuous || e.mode == ModeIdle
  }

  /** The call begins, its id unused by this zone. */
  predicate Begins(w: World) {
    && w.pc == (if w.kind.UntilEdge? then SetTarget else SetMode)
    && w.id != w.regs.reqId && w.id != w.zone.lastReqId && w.id != w.zone.ack
    && w.tale == Tale(false, [], None)
  }

  // -------------------------------------------------------------- invariant

  predicate Written(w: World) {
    && w.regs.reqId == w.id
    && (w.regs.mode == ModeOf(w.kind) || w.regs.mode == ModeContinuous || w.regs.mode == ModeIdle)
    && (w.kind.UntilEdge? ==> w.regs.target == w.kind.target)
  }

  /** The zone follows the tale for as long as nothing has ended the move. */
  predicate Follows(w: World) {
    && w.zone.lastReqId == w.id && Takes(w.kind)
    && (w.tale.cause.None? ==>
          && w.zone.state == StateMoving
          && (w.zone.edgeArmed && w.kind.UntilEdge? ==>
                && w.zone.sensor == TargetRegister(w.kind.target) && w.zone.wantRising == WantsRising(w.kind.target)
                && w.tale.seen != [] && w.zone.prev == w.tale.seen[|w.tale.seen| - 1]))
  }

  predicate Tells(w: World) {
    && (forall k :: 2 <= k < |w.tale.seen| ==> !EndsInEdge(w.tale.seen[..k], w.kind.UntilEdge? && WantsRising(w.kind.target)))
    && (w.kind.UntilEdge? && w.tale.cause != Some(EdgeSeen) ==> !EndsInEdge(w.tale.seen, WantsRising(w.kind.target)))
    && (w.tale.cause == Some(EdgeSeen) ==> w.kind.UntilEdge? && EndsInEdge(w.tale.seen, WantsRising(w.kind.target)))
    && (w.tale.cause == Some(Finished) ==> w.kind.Distance?)
    && (!w.tale.running ==> w.tale == Tale(false, [], None))
  }

  predicate Holds(w: World) {
    && Tells(w)
    && (if w.pc == SetTarget || w.pc == SetMode || w.pc == SetRequest then
          && w.regs.reqId != w.id && w.zone.lastReqId != w.id && w.zone.ack != w.id && !w.tale.running
          && (w.kind.UntilEdge? && w.pc != SetTarget ==> w.regs.target == w.kind.target)
          && (w.pc == SetRequest ==>
                w.regs.mode == ModeOf(w.kind) || w.regs.mode == ModeContinuous || w.regs.mode == ModeIdle)
        else
          && Written(w)
          && (if w.tale.running then Follows(w) else w.zone.ack != w.id && (w.zone.lastReqId == w.id ==> !Takes(w.kind))))
    && (w.pc == AwaitReady || w.pc == Returned ==> w.tale.running)
    && (w.pc == Returned ==> w.tale.cause.Some?)
  }

  lemma BeginsHolds(w: World)
    requires Begins(w)
    ensures Holds(w)
  {
  }

  lemma ClientKeeps(w: World)
    requires Holds(w)
    ensures Holds(ClientStepped(w))
  {
  }

  lemma OtherKeeps(w: World, mode: nat)
    requires Holds(w) && (mode == ModeContinuous || mode == ModeIdle)
    ensures Holds(Stepped(w, OtherMode(mode)))
  {
  }

  lemma Prefixes(seen: seq<bool>, level: bool, rising: bool)
    requires forall k :: 2 <= k < |seen| ==> !EndsInEdge(seen[..k], rising)
    requires !EndsInEdge(seen, rising)
    ensures forall k :: 2 <= k < |seen + [level]| ==> !EndsInEdge((seen + [level])[..k], rising)
  {
    forall k | 2 <= k < |seen + [level]| ensures !EndsInEdge((seen + [level])[..k], rising) {
      if k == |seen| {
        assert (seen + [level])[..k] == seen;
      } else {
        assert (seen + [level])[..k] == seen[..k];
      }
    }
  }

  lemma TickTells(w: World, tripped: bool, eyes: EyeLevels, complete: bool)
    requires Tells(w)
    ensures Tells(w.(tale := Told(w, tripped, eyes, complete)))
  {
    if w.kind.UntilEdge? && w.tale.cause.None? {
      Prefixes(w.tale.seen, eyes(TargetRegister(w.kind.target)), WantsRising(w.kind.target));
    }
  }

  lemma TickKeeps(w: World, tripped: bool, eyes: EyeLevels, complete: bool)
    requires Holds(w)
    ensures Holds(Stepped(w, FirmwareTick(tripped, eyes, complete)))
  {
    TickTells(w, tripped, eyes, complete);
  }

  lemma StepKeeps(w: World, e: Event)
    requires Holds(w) && Possible(e)
    ensures Holds(Stepped(w, e))
  {
    match e
    case FirmwareTick(tripped, eyes, complete) => TickKeeps(w, tripped, eyes, complete);
    case ClientStep => ClientKeeps(w);
    case OtherMode(mode) => OtherKeeps(w, mode);
  }

  // --------------------------------------------------------------- theorem

  function After(w: World, events: seq<Event>, k: nat): World
    requires k <= |events|
  {
    if k == 0 then w else Stepped(After(w, events, k - 1), events[k - 1])
  }

  lemma {:induction false} AlwaysHolds(w: World, events: seq<Event>, k: nat)
    requires Begins(w) && k <= |events| && forall i :: 0 <= i < |events| ==> Possible(events[i])
    ensures Holds(After(w, events, k))
    ensures After(w, events, k).kind == w.kind && After(w, events, k).id == w.id
  {
    if k == 0 {
      BeginsHolds(w);
    } else {
      AlwaysHolds(w, events, k - 1);
      StepKeeps(After(w, events, k - 1), events[k - 1]);
    }
  }

  /** No stale READY: under every interleaving of the call's writes and reads, the
      firmware's ticks and other callers, a call that has returned saw its own move
      end: its own steps complete, its own first edge after arming, a watchdog trip,
      or an idle command. */
  lemma NoStaleReady(w: World, events: seq<Event>, k: nat)
    requires Begins(w) && k <= |events| && forall i :: 0 <= i < |events| ==> Possible(events[i])
    requires After(w, events, k).pc == Returned
    ensures
      var t := After(w, events, k).tale;
      && t.running && t.cause.Some?
      && (t.cause == Some(Finished) ==> w.kind.Distance?)
      && (t.cause == Some(EdgeSeen) ==> w.kind.UntilEdge? && IsFirstEdge(t.seen, WantsRising(w.kind.target)))
  {
    AlwaysHolds(w, events, k);
  }

  /** Why the id must be fresh: an id the zone has already acked, with the zone at
      rest, lets the call return without a single tick of the firmware. */
  lemma ReusedIdReturnsAtOnce(w: World)
    requires w.pc == SetRequest && w.zone.ack == w.id && w.zone.state == StateReady
    ensures After(w, [ClientStep, ClientStep, ClientStep], 3) == w.(pc := Returned, regs := w.regs.(reqId := w.id))
  {
    var events := [ClientStep, ClientStep, ClientStep];
    assert After(w, events, 1) == ClientStepped(w);
    assert After(w, events, 2) == ClientStepped(After(w, events, 1));
    assert After(w, events, 3) == ClientStepped(After(w, events, 2));
  }

  /** One counter serves both zones, counting 1 to 65535 and never repeating 0. */
  function NextId(id: nat): (r: nat)
    ensures 1 <= r <= 65535
  {
    id % 65535 + 1
  }

  function NthId(id: nat, n: nat): nat {
    if n == 0 then id else NextId(NthId(id, n - 1))
  }

  lemma {:induction false} NthIdIs(id: nat, n: nat)
    requires 1 <= id <= 65535
    ensures NthId(id, n) == (id - 1 + n) % 65535 + 1
  {
    if n > 0 {
      NthIdIs(id, n - 1);
      OneTurnOn(id - 1 + n - 1);
    }
  }

  lemma OneTurnOn(x: nat)
    ensures NextId(x % 65535 + 1) == (x + 1) % 65535 + 1
  {
    WholeTurns(x % 65535 + 1, x / 65535);
  }

  lemma WholeTurns(x: nat, q: nat)
    ensures (x + 65535 * q) % 65535 == x % 65535
  {
  }

  lemma Returns(a: nat, r: nat)
    requires a < 65535 && r < 65535
    ensures (a + r) % 65535 == a <==> r == 0
  {
    if a + r >= 65535 {
      WholeTurns(a + r - 65535, 1);
    }
  }

  /** An id comes round again exactly every 65535 calls, so it is fresh as long as a
      zone's last move lies fewer calls back. */
  lemma IdsRepeat(id: nat, n: nat)
    requires 1 <= id <= 65535
    ensures NthId(id, n) == id <==> n % 65535 == 0
  {
    NthIdIs(id, n);
    WholeTurns(id - 1 + n % 65535, n / 65535);
    Returns(id - 1, n % 65535);
  }
}

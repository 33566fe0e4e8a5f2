/** Whole runs of the controller under an adversarial outside world: arbitrary
    sensors, fan feedback, completions, delays, faults, pauses and recoveries that
    confirm the believed map or, mid-advance, a projection the sensors agree with. */
module Runs {
  import opened Model
  import opened Schedule
  import opened Timers
  import opened Guards
  import opened Machine
  import opened Moves
  import opened Pattern
  import opened Safety
  import opened Recovery

  datatype Event =
    | Tick(f1: bool, f2: bool, inputs: Inputs, id: nat)
    | Paused(f1: bool, f2: bool, dt: real)
    | Acknowledge(sensors: Sensors, confirmed: Option<map<Station, PartId>>, beat: Option<Beat>, id: nat)

  /** Timers follow fan feedback, so each tick first overwrites the fan fields. */
  function Sensed(s: LineState, f1: bool, f2: bool): LineState {
    s.(f1Fan := f1, f2Fan := f2)
  }

  function React(cfg: Config, s: LineState, e: Event): StepResult {
    match e
    case Tick(f1, f2, inputs, id) =>
      var r := Step(Sensed(s, f1, f2), inputs, cfg, id);
      r.(state := r.state.(sprayBurstActive := inputs.sensors.gunOn))
    case Paused(f1, f2, dt) =>
      var t := Sensed(s, f1, f2);
      Stay(t.(parts := AdvanceFlash(t, dt, cfg)), None, 0)
    case Acknowledge(sensors, confirmed, beat, id) => Resume(s, sensors, confirmed, beat, id)
  }

  /** The part table right after this event's time has been banked. */
  function Banked(cfg: Config, s: LineState, e: Event): map<PartId, PartState> {
    match e
    case Tick(f1, f2, inputs, id) => AdvanceFlash(Sensed(s, f1, f2), inputs.dt, cfg)
    case Paused(f1, f2, dt) => AdvanceFlash(Sensed(s, f1, f2), dt, cfg)
    case Acknowledge(sensors, confirmed, beat, id) => s.parts
  }

  predicate Honest(s: LineState, sensors: Sensors, confirmed: Option<map<Station, PartId>>) {
    || confirmed == None
    || confirmed == Some(s.occupancy)
    || (MidAdvance(s) && confirmed == Some(Projected(s).occupancy) && OccupancyMismatch(Projected(s), sensors).None?)
  }

  predicate Admissible(s: LineState, e: Event) {
    match e
    case Tick(f1, f2, inputs, id) =>
      inputs.dt >= 0.0 && (inputs.fault.Some? ==> inputs.fault.value.External?)
    case Paused(f1, f2, dt) => dt >= 0.0
    case Acknowledge(sensors, confirmed, beat, id) => Honest(s, sensors, confirmed) && beat == None
  }

  predicate IsRun(cfg: Config, states: seq<LineState>, events: seq<Event>) {
    && |states| == |events| + 1
    && (forall k {:trigger events[k]} :: 0 <= k < |events| ==>
         Admissible(states[k], events[k]) && states[k + 1] == React(cfg, states[k], events[k]).state)
  }

  // ------------------------------------------------------------- one event

  /** The move phase ends here: nothing to move, or every arrival confirmed. */
  predicate Lands(o: LineState, sensors: Sensors) {
    && o.phase == Moving
    && (if o.inFlight != [] then Arrivals(o.inFlight) - sensors.occupied == {} else LiveMoves(o) == [])
  }

  /** The state whose train this event advances, if it advances one. */
  function Departing(cfg: Config, s: LineState, e: Event): Option<LineState> {
    match e
    case Tick(f1, f2, inputs, id) =>
      var o := Observed(Sensed(s, f1, f2), inputs, cfg);
      if inputs.fault.None? && o.pending == [] && Lands(o, inputs.sensors) then Some(o) else None
    case Paused(f1, f2, dt) => None
    case Acknowledge(sensors, confirmed, beat, id) =>
      if MidAdvance(s) && confirmed == Some(Projected(s).occupancy) && OccupancyMismatch(Projected(s), sensors).None?
      then Some(Unfaulted(s)) else None
  }

  lemma SensedKeeps(all: seq<PartId>, cfg: Config, s: LineState, f1: bool, f2: bool)
    requires OnSchedule(all, cfg, s)
    ensures OnSchedule(all, cfg, Sensed(s, f1, f2))
  {
    var t := Sensed(s, f1, f2);
    FlightCarries(cfg, s, t);
    Rephased(all, cfg, s, t);
  }

  lemma TickKeeps(all: seq<PartId>, cfg: Config, s: LineState, f1: bool, f2: bool, inputs: Inputs, id: nat)
    requires OnSchedule(all, cfg, s) && inputs.dt >= 0.0
    ensures OnSchedule(all, cfg, React(cfg, s, Tick(f1, f2, inputs, id)).state)
  {
    SensedKeeps(all, cfg, s, f1, f2);
    StepKeeps(all, cfg, Sensed(s, f1, f2), inputs, id);
    var r := Step(Sensed(s, f1, f2), inputs, cfg, id).state;
    var t := r.(sprayBurstActive := inputs.sensors.gunOn);
    FlightCarries(cfg, r, t);
    Rephased(all, cfg, r, t);
  }

  lemma PausedKeeps(all: seq<PartId>, cfg: Config, s: LineState, f1: bool, f2: bool, dt: real)
    requires OnSchedule(all, cfg, s) && dt >= 0.0
    ensures OnSchedule(all, cfg, React(cfg, s, Paused(f1, f2, dt)).state)
  {
    SensedKeeps(all, cfg, s, f1, f2);
    ObservedKeeps(all, cfg, Sensed(s, f1, f2), s.pending, dt);
  }

  lemma AcknowledgeKeeps(
    all: seq<PartId>, cfg: Config, s: LineState, sensors: Sensors, confirmed: Option<map<Station, PartId>>, id: nat)
    requires OnSchedule(all, cfg, s) && Honest(s, sensors, confirmed)
    ensures OnSchedule(all, cfg, Resume(s, sensors, confirmed, None, id).state)
  {
    if s.phase == Faulted {
      if confirmed == None || confirmed == Some(s.occupancy) {
        BelievedKeeps(all, cfg, s, sensors, confirmed, id);
      } else {
        ProjectionKeepsIffAccepted(all, cfg, s, sensors, id);
      }
    }
  }

  /** Every admissible event keeps the invariant. */
  lemma ReactKeeps(all: seq<PartId>, cfg: Config, s: LineState, e: Event)
    requires OnSchedule(all, cfg, s) && Admissible(s, e)
    ensures OnSchedule(all, cfg, React(cfg, s, e).state)
  {
    match e
    case Tick(f1, f2, inputs, id) => TickKeeps(all, cfg, s, f1, f2, inputs, id);
    case Paused(f1, f2, dt) => PausedKeeps(all, cfg, s, f1, f2, dt);
    case Acknowledge(sensors, confirmed, beat, id) => AcknowledgeKeeps(all, cfg, s, sensors, confirmed, id);
  }

  predicate SameLine(s: LineState, t: LineState) {
    t.occupancy == s.occupancy && t.inQueue == s.inQueue && t.parts.Keys == s.parts.Keys
  }

  lemma DispatchShape(all: seq<PartId>, cfg: Config, o: LineState, sensors: Sensors, id: nat)
    requires OnSchedule(all, cfg, o) && o.phase != Faulted
    ensures
      var t := Dispatch(o, sensors, cfg, id).state;
      if Lands(o, sensors) then LayoutOf(t) == LayoutOf(Advanced(o)) else SameLine(o, t)
  {
    match o.phase
    case RobotWork => RobotWorkOutcome(all, cfg, o, sensors, id);
    case Moving =>
    case AwaitGuards =>
    case ShutterOpen =>
    case ShutterClose =>
    case SetFans =>
  }

  lemma ObservedLine(all: seq<PartId>, cfg: Config, s: LineState, inputs: Inputs)
    requires OnSchedule(all, cfg, s) && inputs.dt >= 0.0
    ensures OnSchedule(all, cfg, Observed(s, inputs, cfg))
    ensures SameLine(s, Observed(s, inputs, cfg))
  {
    KeyedParts(all, cfg, s);
    AdvanceFlashPointwise(s, inputs.dt, cfg);
    ObservedKeeps(all, cfg, s, Remaining(s.pending, inputs.completed), inputs.dt);
  }

  /** A step either leaves the observed layout alone or is a dispatch. */
  lemma StepCases(cfg: Config, s: LineState, inputs: Inputs, id: nat)
    ensures
      var o := Observed(s, inputs, cfg);
      var r := Step(s, inputs, cfg, id);
      && (inputs.fault.None? && o.pending == [] && o.phase == Moving ==> r == Dispatch(o, inputs.sensors, cfg, id))
      && (LayoutOf(r.state) == LayoutOf(o) || (r == Dispatch(o, inputs.sensors, cfg, id) && o.phase != Faulted))
  {
  }

  lemma StepShape(all: seq<PartId>, cfg: Config, s: LineState, inputs: Inputs, id: nat)
    requires OnSchedule(all, cfg, s) && inputs.dt >= 0.0
    ensures
      var o := Observed(s, inputs, cfg);
      var t := Step(s, inputs, cfg, id).state;
      && OnSchedule(all, cfg, o)
      && if inputs.fault.None? && o.pending == [] && Lands(o, inputs.sensors)
         then LayoutOf(t) == LayoutOf(Advanced(o)) else SameLine(s, t)
  {
    var o := Observed(s, inputs, cfg);
    ObservedLine(all, cfg, s, inputs);
    StepCases(cfg, s, inputs, id);
    if LayoutOf(Step(s, inputs, cfg, id).state) != LayoutOf(o) || Lands(o, inputs.sensors) {
      if o.phase != Faulted {
        DispatchShape(all, cfg, o, inputs.sensors, id);
      }
    }
    assert LayoutOf(Step(s, inputs, cfg, id).state) == LayoutOf(o) ==> SameLine(s, Step(s, inputs, cfg, id).state);
  }

  lemma LandingIsReady(all: seq<PartId>, cfg: Config, o: LineState, sensors: Sensors)
    requires OnSchedule(all, cfg, o) && Lands(o, sensors)
    ensures ReadyToAdvance(all, cfg, o)
  {
  }

  /** An event that moves no train leaves the map, the queue and the set of parts
      alone; one that moves it does exactly one scheduled advance. */
  lemma ReactShape(all: seq<PartId>, cfg: Config, s: LineState, e: Event)
    requires OnSchedule(all, cfg, s) && Admissible(s, e)
    ensures
      var t := React(cfg, s, e).state;
      var d := Departing(cfg, s, e);
      if d.Some? then ReadyToAdvance(all, cfg, d.value) && LayoutOf(t) == LayoutOf(Advanced(d.value))
      else SameLine(s, t)
  {
    match e
    case Tick(f1, f2, inputs, id) =>
      SensedKeeps(all, cfg, s, f1, f2);
      StepShape(all, cfg, Sensed(s, f1, f2), inputs, id);
      if Departing(cfg, s, e).Some? {
        LandingIsReady(all, cfg, Departing(cfg, s, e).value, inputs.sensors);
      }
    case Paused(f1, f2, dt) =>
      SensedKeeps(all, cfg, s, f1, f2);
      KeyedParts(all, cfg, Sensed(s, f1, f2));
      AdvanceFlashPointwise(Sensed(s, f1, f2), dt, cfg);
    case Acknowledge(sensors, confirmed, beat, id) =>
      ResumeShape(all, cfg, s, sensors, confirmed, id);
  }

  lemma ResumeShape(
    all: seq<PartId>, cfg: Config, s: LineState, sensors: Sensors, confirmed: Option<map<Station, PartId>>, id: nat)
    requires OnSchedule(all, cfg, s) && Honest(s, sensors, confirmed)
    ensures
      var t := Resume(s, sensors, confirmed, None, id).state;
      var d := Departing(cfg, s, Acknowledge(sensors, confirmed, None, id));
      if d.Some? then ReadyToAdvance(all, cfg, d.value) && LayoutOf(t) == LayoutOf(Advanced(d.value))
      else SameLine(s, t)
  {
    if Departing(cfg, s, Acknowledge(sensors, confirmed, None, id)).Some? {
      UnfaultedReady(all, cfg, s);
    } else if s.phase == Faulted {
      BelievedKeeps(all, cfg, s, sensors, confirmed, id);
    }
  }

  // ----------------------------------------------------------- guarantees

  /** Both coats, both flashes. */
  predicate Finished(p: PartState, cfg: Config) {
    p.coats == 2 && p.flash1 >= cfg.flashSeconds && p.flash2 >= cfg.flashSeconds
  }

  /** What may be sprayed: coat 1 on a bare part, coat 2 on a part that meets the
      source's own guard for it. */
  predicate MaySpray(parts: map<PartId, PartState>, cfg: Config, pid: PartId, coat: nat) {
    && pid in parts
    && parts[pid].coats + 1 == coat <= 2
    && (coat == 2 ==> MayReceiveCoat2(parts[pid], cfg))
  }

  lemma EmittedSpray(all: seq<PartId>, cfg: Config, o: LineState, sensors: Sensors, id: nat, intent: Intent)
    requires OnSchedule(all, cfg, o) && o.phase != Faulted
    requires intent in Dispatch(o, sensors, cfg, id).intents && intent.SprayPart?
    ensures o.phase == RobotWork
    ensures MaySpray(o.parts, cfg, intent.part, intent.coat)
  {
    if o.phase == RobotWork {
      PartAtO(all, cfg, o);
    }
  }

  /** Every spray the controller ever asks for is allowed. */
  lemma SprayIsAllowed(all: seq<PartId>, cfg: Config, s: LineState, e: Event, intent: Intent)
    requires OnSchedule(all, cfg, s) && Admissible(s, e)
    requires intent in React(cfg, s, e).intents && intent.SprayPart?
    ensures MaySpray(Banked(cfg, s, e), cfg, intent.part, intent.coat)
  {
    if e.Tick? {
      SensedKeeps(all, cfg, s, e.f1, e.f2);
      var u := Sensed(s, e.f1, e.f2);
      var o := Observed(u, e.inputs, cfg);
      ObservedLine(all, cfg, u, e.inputs);
      assert o.phase != Faulted && intent in Dispatch(o, e.inputs.sensors, cfg, e.id).intents;
      EmittedSpray(all, cfg, o, e.inputs.sensors, e.id, intent);
    }
  }

  lemma FlashKeys(all: seq<PartId>, cfg: Config, s: LineState, dt: real)
    requires OnSchedule(all, cfg, s)
    ensures AdvanceFlash(s, dt, cfg).Keys == s.parts.Keys
  {
    KeyedParts(all, cfg, s);
    AdvanceFlashPointwise(s, dt, cfg);
  }

  lemma BankedKeys(all: seq<PartId>, cfg: Config, s: LineState, e: Event)
    requires OnSchedule(all, cfg, s)
    ensures Banked(cfg, s, e).Keys == s.parts.Keys
  {
    if !e.Acknowledge? {
      SensedKeeps(all, cfg, s, e.f1, e.f2);
      FlashKeys(all, cfg, Sensed(s, e.f1, e.f2), if e.Tick? then e.inputs.dt else e.dt);
    }
  }

  lemma DepartingParts(cfg: Config, s: LineState, e: Event)
    requires Departing(cfg, s, e).Some?
    ensures Departing(cfg, s, e).value.parts == Banked(cfg, s, e)
  {
  }

  /** Every part that leaves is finished. */
  lemma DepartureIsFinished(all: seq<PartId>, cfg: Config, s: LineState, e: Event, pid: PartId)
    requires OnSchedule(all, cfg, s) && Admissible(s, e)
    requires pid in s.parts && pid !in React(cfg, s, e).state.parts
    ensures pid in Banked(cfg, s, e) && Finished(Banked(cfg, s, e)[pid], cfg)
    ensures MayOutfeed(Banked(cfg, s, e)[pid], cfg) <==> cfg.coats <= 2
  {
    ReactShape(all, cfg, s, e);
    DepartingParts(cfg, s, e);
    BankedKeys(all, cfg, s, e);
    AdvanceFinishes(all, cfg, Departing(cfg, s, e).value, LayoutOf(React(cfg, s, e).state), pid);
  }

  lemma AdvanceFinishes(all: seq<PartId>, cfg: Config, u: LineState, r: Layout, pid: PartId)
    requires ReadyToAdvance(all, cfg, u) && r == LayoutOf(Advanced(u))
    requires pid in u.parts && pid !in r.parts
    ensures Finished(u.parts[pid], cfg)
  {
    OutfedPartIsFinished(all, cfg, u, pid);
  }

  predicate RoleFault(f: Option<Reason>) {
    f.Some? && f.value.RoleMismatch?
  }

  lemma DispatchRoleFault(all: seq<PartId>, cfg: Config, o: LineState, sensors: Sensors, id: nat)
    requires OnSchedule(all, cfg, o) && o.phase != Faulted
    ensures !RoleFault(Dispatch(o, sensors, cfg, id).state.fault)
  {
    if o.phase == RobotWork {
      RobotWorkOutcome(all, cfg, o, sensors, id);
    }
  }

  /** Where the latched fault of a step can come from. */
  lemma StepFault(cfg: Config, s: LineState, inputs: Inputs, id: nat)
    ensures
      var o := Observed(s, inputs, cfg);
      var f := Step(s, inputs, cfg, id).state.fault;
      || f == s.fault || f == inputs.fault || (f.Some? && f.value.SensorMismatch?)
      || (o.phase != Faulted && f == Dispatch(o, inputs.sensors, cfg, id).state.fault)
  {
  }

  lemma StepRoleFault(all: seq<PartId>, cfg: Config, s: LineState, inputs: Inputs, id: nat)
    requires OnSchedule(all, cfg, s) && !RoleFault(s.fault) && inputs.dt >= 0.0
    requires !RoleFault(inputs.fault)
    ensures !RoleFault(Step(s, inputs, cfg, id).state.fault)
  {
    var o := Observed(s, inputs, cfg);
    ObservedLine(all, cfg, s, inputs);
    StepFault(cfg, s, inputs, id);
    if o.phase != Faulted {
      DispatchRoleFault(all, cfg, o, inputs.sensors, id);
    }
  }

  /** The role check of the work phase is never the reason the line stops. */
  lemma NoRoleMismatch(all: seq<PartId>, cfg: Config, s: LineState, e: Event)
    requires OnSchedule(all, cfg, s) && Admissible(s, e) && !RoleFault(s.fault)
    ensures !RoleFault(React(cfg, s, e).state.fault)
  {
    if e.Tick? {
      SensedKeeps(all, cfg, s, e.f1, e.f2);
      StepRoleFault(all, cfg, Sensed(s, e.f1, e.f2), e.inputs, e.id);
    }
  }

  // ---------------------------------------------------------------- order

  function ToSeq(o: Option<PartId>): seq<PartId> {
    if o.Some? then [o.value] else []
  }

  /** Parts on the line from the outfeed end, then the queue. */
  function LineOrder(l: Layout): seq<PartId> {
    ToSeq(At(l.occupancy, F2)) + ToSeq(At(l.occupancy, O)) + ToSeq(At(l.occupancy, F1)) + l.inQueue
  }

  /** The declared parts numbered from `i` up to but excluding `k`. */
  function Span(all: seq<PartId>, i: int, k: int): seq<PartId>
    requires i <= k
  {
    all[Clamp(i, |all|)..Clamp(k, |all|)]
  }

  lemma SpanJoins(all: seq<PartId>, i: int, k: int, m: int)
    requires i <= k <= m
    ensures Span(all, i, k) + Span(all, k, m) == Span(all, i, m)
  {
  }

  lemma StationSpan(all: seq<PartId>, b: Beat, j: int, l: Layout, st: Station, low: int, next: int)
    requires PlacesFit(all, b, j, l)
    requires if NumberAt(b, j, st).Some? then low == NumberAt(b, j, st).value && next == low + 1 else low == next
    ensures ToSeq(At(l.occupancy, st)) == Span(all, low, next)
  {
    assert At(l.occupancy, st) == Occupant(all, b, j, st);
  }

  lemma SpansJoin(all: seq<PartId>, i: int, k: int, m: int, n: int, x: seq<PartId>, y: seq<PartId>, z: seq<PartId>)
    requires i <= k <= m <= n
    requires x == Span(all, i, k) && y == Span(all, k, m) && z == Span(all, m, n)
    ensures x + y + z + all[Clamp(n, |all|)..] == all[Clamp(i, |all|)..]
  {
    SpanJoins(all, i, k, m);
    SpanJoins(all, i, m, n);
  }

  lemma OrderIsSuffix(all: seq<PartId>, b: Beat, j: int, l: Layout)
    requires PlacesFit(all, b, j, l)
    ensures LineOrder(l) == all[Clamp(LowNumber(b, j), |all|)..]
  {
    var low, next := LowNumber(b, j), NextNumber(b, j);
    var atO := if b == P3 then low else low + 1;
    StationSpan(all, b, j, l, F2, low, atO);
    StationSpan(all, b, j, l, O, atO, atO + 1);
    StationSpan(all, b, j, l, F1, atO + 1, next);
    SpansJoin(all, low, atO, atO + 1, next,
      ToSeq(At(l.occupancy, F2)), ToSeq(At(l.occupancy, O)), ToSeq(At(l.occupancy, F1)));
  }

  /** Nothing is lost, invented or overtaken between two layouts: at most the part
      at the head of the line is gone. */
  predicate HeadLeaves(l: Layout, r: Layout) {
    || (r.parts.Keys == l.parts.Keys && LineOrder(r) == LineOrder(l))
    || (LineOrder(l) != [] && l.parts.Keys - r.parts.Keys == {LineOrder(l)[0]} && r.parts.Keys <= l.parts.Keys
        && LineOrder(r) == LineOrder(l)[1..])
  }

  /** The outgoing part is the lowest number on the line. */
  lemma OutboundIsHead(all: seq<PartId>, b: Beat, j: int, l: Layout)
    requires PlacesFit(all, b, j, l) && j >= -1
    ensures
      var k, next := Clamp(LowNumber(b, j), |all|), Clamp(LowNumber(NextBeat(b), NextPair(b, j)), |all|);
      if Outbound(b, l).Some? then next == k + 1 && all[k] == Outbound(b, l).value else next == k
  {
    assert At(l.occupancy, F2) == Occupant(all, b, j, F2);
  }

  lemma SuffixHeadLeaves(all: seq<PartId>, k: nat, out: Option<PartId>, l: Layout, r: Layout)
    requires k <= |all| && (out.Some? ==> k < |all| && all[k] == out.value && out.value in l.parts)
    requires LineOrder(l) == all[k..] && LineOrder(r) == all[if out.Some? then k + 1 else k..]
    requires r.parts == if out.Some? then l.parts - {out.value} else l.parts
    ensures HeadLeaves(l, r)
  {
    if out.Some? {
      assert all[k..][1..] == all[k + 1..];
      assert l.parts.Keys - r.parts.Keys == {out.value};
    }
  }

  lemma ShiftKeepsOrder(all: seq<PartId>, b: Beat, j: int, l: Layout, r: Layout)
    requires j >= -1
    requires PlacesFit(all, b, j, l) && PlacesFit(all, NextBeat(b), NextPair(b, j), r)
    requires r.parts == if Outbound(b, l).Some? then l.parts - {Outbound(b, l).value} else l.parts
    requires Outbound(b, l).Some? ==> Outbound(b, l).value in l.parts
    ensures HeadLeaves(l, r)
  {
    OrderIsSuffix(all, b, j, l);
    OrderIsSuffix(all, NextBeat(b), NextPair(b, j), r);
    OutboundIsHead(all, b, j, l);
    SuffixHeadLeaves(all, Clamp(LowNumber(b, j), |all|), Outbound(b, l), l, r);
  }

  lemma AdvanceKeepsOrder(all: seq<PartId>, cfg: Config, u: LineState)
    requires ReadyToAdvance(all, cfg, u)
    ensures HeadLeaves(LayoutOf(u), LayoutOf(Advanced(u)))
  {
    ScheduledIdsNamed(all, cfg, u);
    AdvanceIsShift(u);
    BeatShiftKeepsOrder(all, cfg, u, LayoutOf(Advanced(u)));
  }

  lemma BeatShiftKeepsOrder(all: seq<PartId>, cfg: Config, u: LineState, r: Layout)
    requires OnSchedule(all, cfg, u) && !AfterMove(u)
    requires BeatShift(u.beat, LayoutOf(u), r)
    ensures HeadLeaves(LayoutOf(u), r)
  {
    ShiftedPlaces(all, cfg, u, r);
    OutboundIsRecorded(all, cfg, u);
    ShiftKeepsOrder(all, u.beat, u.pairIndex - 1, LayoutOf(u), r);
  }

  lemma OutboundIsRecorded(all: seq<PartId>, cfg: Config, u: LineState)
    requires OnSchedule(all, cfg, u) && !AfterMove(u)
    ensures var out := Outbound(u.beat, LayoutOf(u)); out.Some? ==> out.value in u.parts
  {
    assert At(LayoutOf(u).occupancy, F2) == Occupant(all, u.beat, u.pairIndex - 1, F2);
  }

  /** Every event, admissible and on schedule, takes at most the head of the line. */
  lemma EventKeepsOrder(all: seq<PartId>, cfg: Config, s: LineState, e: Event)
    requires OnSchedule(all, cfg, s) && Admissible(s, e)
    ensures HeadLeaves(LayoutOf(s), LayoutOf(React(cfg, s, e).state))
  {
    ReactShape(all, cfg, s, e);
    var d := Departing(cfg, s, e);
    if d.Some? {
      DepartingLine(all, cfg, s, e);
      AdvanceKeepsOrder(all, cfg, d.value);
    }
  }

  lemma DepartingLine(all: seq<PartId>, cfg: Config, s: LineState, e: Event)
    requires OnSchedule(all, cfg, s) && Admissible(s, e)
    requires Departing(cfg, s, e).Some?
    ensures SameLine(s, Departing(cfg, s, e).value)
  {
    if e.Tick? {
      SensedKeeps(all, cfg, s, e.f1, e.f2);
      ObservedLine(all, cfg, Sensed(s, e.f1, e.f2), e.inputs);
    }
  }

  // ----------------------------------------------------------- whole runs

  /** The part that leaves between two consecutive states, if one does. */
  function Leaver(s: LineState, t: LineState): seq<PartId> {
    var order := LineOrder(LayoutOf(s));
    if s.parts.Keys == t.parts.Keys || order == [] then [] else [order[0]]
  }

  /** Ids that have left by the k-th state, in the order they left. */
  function Outfed(states: seq<LineState>, k: nat): seq<PartId>
    requires k < |states|
  {
    if k == 0 then [] else Outfed(states, k - 1) + Leaver(states[k - 1], states[k])
  }

  /** The part ids an event takes off the line. */
  function Left(cfg: Config, s: LineState, e: Event): set<PartId> {
    s.parts.Keys - React(cfg, s, e).state.parts.Keys
  }

  lemma {:induction false} RunOnSchedule(
    all: seq<PartId>, cfg: Config, states: seq<LineState>, events: seq<Event>, k: nat)
    requires k < |states| && IsRun(cfg, states, events) && Declared(all, states[0])
    ensures OnSchedule(all, cfg, states[k]) && !RoleFault(states[k].fault)
  {
    if k == 0 {
      DeclaredOnSchedule(all, cfg, states[0]);
    } else {
      RunOnSchedule(all, cfg, states, events, k - 1);
      ReactKeeps(all, cfg, states[k - 1], events[k - 1]);
      NoRoleMismatch(all, cfg, states[k - 1], events[k - 1]);
    }
  }

  /** Never under-flash, on every run from a declared batch: no spray is emitted
      that its guard would refuse, no part leaves unfinished, and the role check
      never fires. */
  lemma NeverUnderFlash(all: seq<PartId>, cfg: Config, states: seq<LineState>, events: seq<Event>)
    requires IsRun(cfg, states, events) && Declared(all, states[0])
    ensures forall k, intent :: 0 <= k < |events| && intent in React(cfg, states[k], events[k]).intents && intent.SprayPart? ==>
      MaySpray(Banked(cfg, states[k], events[k]), cfg, intent.part, intent.coat)
    ensures forall k, pid :: 0 <= k < |events| && pid in Left(cfg, states[k], events[k]) ==>
      && pid in Banked(cfg, states[k], events[k])
      && Finished(Banked(cfg, states[k], events[k])[pid], cfg)
      && (MayOutfeed(Banked(cfg, states[k], events[k])[pid], cfg) <==> cfg.coats <= 2)
    ensures forall k :: 0 <= k < |states| ==> !RoleFault(states[k].fault)
  {
    forall k, intent | 0 <= k < |events| && intent in React(cfg, states[k], events[k]).intents && intent.SprayPart?
      ensures MaySpray(Banked(cfg, states[k], events[k]), cfg, intent.part, intent.coat)
    {
      RunOnSchedule(all, cfg, states, events, k);
      SprayIsAllowed(all, cfg, states[k], events[k], intent);
    }
    forall k, pid | 0 <= k < |events| && pid in Left(cfg, states[k], events[k])
      ensures pid in Banked(cfg, states[k], events[k]) && Finished(Banked(cfg, states[k], events[k])[pid], cfg)
      ensures MayOutfeed(Banked(cfg, states[k], events[k])[pid], cfg) <==> cfg.coats <= 2
    {
      RunOnSchedule(all, cfg, states, events, k);
      DepartureIsFinished(all, cfg, states[k], events[k], pid);
    }
    forall k | 0 <= k < |states| ensures !RoleFault(states[k].fault) {
      RunOnSchedule(all, cfg, states, events, k);
    }
  }

  lemma LeaverIsHead(s: LineState, t: LineState)
    requires HeadLeaves(LayoutOf(s), LayoutOf(t))
    ensures Leaver(s, t) + LineOrder(LayoutOf(t)) == LineOrder(LayoutOf(s))
  {
  }

  predicate OrderedStep(states: seq<LineState>, k: nat)
    requires k + 1 < |states|
  {
    HeadLeaves(LayoutOf(states[k]), LayoutOf(states[k + 1]))
  }

  lemma RunStepOrder(all: seq<PartId>, cfg: Config, states: seq<LineState>, events: seq<Event>, k: nat)
    requires k < |events| && IsRun(cfg, states, events) && Declared(all, states[0])
    ensures OrderedStep(states, k)
  {
    RunOnSchedule(all, cfg, states, events, k);
    EventKeepsOrder(all, cfg, states[k], events[k]);
  }

  lemma Glue(gone: seq<PartId>, leaver: seq<PartId>, line: seq<PartId>, before: seq<PartId>)
    requires leaver + line == before
    ensures gone + leaver + line == gone + before
  {
  }

  lemma {:induction false} OutfedThenLine(states: seq<LineState>, k: nat)
    requires k < |states| && forall i :: 0 <= i < k ==> OrderedStep(states, i)
    ensures Outfed(states, k) + LineOrder(LayoutOf(states[k])) == LineOrder(LayoutOf(states[0]))
  {
    if k > 0 {
      OutfedThenLine(states, k - 1);
      assert OrderedStep(states, k - 1);
      LeaverIsHead(states[k - 1], states[k]);
      Glue(Outfed(states, k - 1), Leaver(states[k - 1], states[k]),
           LineOrder(LayoutOf(states[k])), LineOrder(LayoutOf(states[k - 1])));
    }
  }

  /** No loss and no overtaking, at every state of every run: what has left, then
      what stands on the line, then what waits, is the declared sequence. */
  lemma NoLossNoOvertaking(
    all: seq<PartId>, cfg: Config, states: seq<LineState>, events: seq<Event>, k: nat)
    requires k < |states| && IsRun(cfg, states, events) && Declared(all, states[0])
    ensures Outfed(states, k) + LineOrder(LayoutOf(states[k])) == all
  {
    forall i | 0 <= i < k ensures OrderedStep(states, i) {
      RunStepOrder(all, cfg, states, events, i);
    }
    OutfedThenLine(states, k);
    DeclaredOrder(all, states[0]);
  }

  lemma DeclaredOrder(all: seq<PartId>, s: LineState)
    requires Declared(all, s)
    ensures LineOrder(LayoutOf(s)) == all
  {
  }
}

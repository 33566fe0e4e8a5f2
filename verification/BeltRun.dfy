/** Belts and firmware together: the physics that shifts the train after `transfer`
    seconds of running, against the zones that stop on their armed edges. One request,
    one shift, and the zones stand before a second could begin. */
module BeltRun {
  import opened Model
  import opened Machine
  import opened Pattern
  import opened Safety
  import opened Train
  import opened Physics
  import Drain
  import Firmware

  /** One advance: what each zone was asked, which way its coil points, and the times of
      the belts and of the loops that watch them. */
  datatype Setup = Setup(
    scene: Scene,
    plan: Shift,
    targets: Targets,
    c1: Firmware.Command,
    c2: Firmware.Command,
    down1: bool,
    down2: bool,
    belts: Belts,
    inCount: nat,
    transfer: real,
    transit: real,
    dwell: real,
    dt: real,
    lag: real)

  /** The belts, both zones, the clock, the seconds since the firmware last looked, and
      how often a train has set off. */
  datatype Rig = Rig(belt: Belt, z1: Firmware.Zone, z2: Firmware.Zone, now: real, unseen: real, departures: nat)

  /** A zone that stops on a sensor runs until the firmware says it is ready. */
  predicate Runs(c: Firmware.Command, z: Firmware.Zone) {
    c.mode == Firmware.ModeContinuous || (c.mode == Firmware.ModeSensorStop && z.state == Firmware.StateMoving)
  }

  function MotorsOf(x: Setup, r: Rig): Motors {
    Motors(Runs(x.c1, r.z1), x.down1, Runs(x.c2, r.z2), x.down2, x.belts.feed)
  }

  function PictureOf(p: Belt): Picture {
    Picture(p.occupied, p.z1Eye, p.z2Eye)
  }

  function Look(z: Firmware.Zone, c: Firmware.Command, p: Picture, looks: bool): Firmware.Zone {
    if looks then Firmware.TickZone(z, false, c, EyesOf(p), false) else z
  }

  /** One tick of the belts, and of the firmware if its loop comes round. */
  function RigTick(x: Setup, r: Rig, looks: bool): Rig {
    var belt := TickBelt(r.belt, MotorsOf(x, r), r.now, x.dt, x.transfer, x.transit, x.dwell);
    Rig(belt, Look(r.z1, x.c1, PictureOf(belt), looks), Look(r.z2, x.c2, PictureOf(belt), looks), r.now + x.dt,
        if looks then 0.0 else r.unseen + x.dt,
        r.departures + if r.belt.transit.None? && belt.transit.Some? then 1 else 0)
  }

  /** The firmware never looks away for longer than `lag`. */
  predicate Attends(x: Setup, r: Rig, looks: bool) {
    looks || r.unseen + x.dt <= x.lag
  }

  // -------------------------------------------------------------- one zone

  /** What a zone without a target, or with one, was told. */
  predicate Told(c: Firmware.Command, t: Option<Target>) {
    if t.Some? then c.mode == Firmware.ModeSensorStop && c.target == Register(t.value) else c.mode == Firmware.ModeIdle
  }

  /** Running, having last read this picture. */
  predicate Rolls(z: Firmware.Zone, c: Firmware.Command, t: Option<Target>, p: Picture) {
    t.Some? ==> Watching(z, c, t.value, Level(p, t.value.sensor))
  }

  /** The gap has been read: only a rise is still awaited. */
  predicate SawGap(z: Firmware.Zone, c: Firmware.Command, t: Option<Target>) {
    t.Some? ==> if t.value.falling then Stopped(z, c) else Watching(z, c, t.value, false)
  }

  predicate Stands(z: Firmware.Zone, c: Firmware.Command, t: Option<Target>) {
    t.Some? ==> Stopped(z, c)
  }

  predicate LastEdge(t: Option<Target>, s: Scene) {
    t.Some? ==> EdgeIsLast(t.value, s)
  }

  lemma ZoneLooks(z: Firmware.Zone, c: Firmware.Command, t: Option<Target>, s: Scene)
    requires Told(c, t) && LastEdge(t, s)
    ensures Rolls(z, c, t, s.before) ==> Rolls(Look(z, c, s.before, true), c, t, s.before)
    ensures Rolls(z, c, t, s.before) ==> SawGap(Look(z, c, s.gap, true), c, t)
    ensures SawGap(z, c, t) ==> SawGap(Look(z, c, s.gap, true), c, t)
    ensures SawGap(z, c, t) ==> Stands(Look(z, c, s.after, true), c, t)
  {
    if t.Some? {
      WatchTick(z, c, t.value, s.before, Level(s.before, t.value.sensor));
      WatchTick(z, c, t.value, s.gap, Level(s.before, t.value.sensor));
      WatchTick(z, c, t.value, s.gap, false);
      WatchTick(z, c, t.value, s.after, false);
    }
  }

  lemma StandingStays(z: Firmware.Zone, c: Firmware.Command, t: Option<Target>, p: Picture)
    requires Told(c, t) && Stands(z, c, t)
    ensures Stands(Look(z, c, p, true), c, t) && !Runs(c, z)
  {
    if t.Some? {
      WatchTick(z, c, t.value, p, false);
    }
  }

  // ------------------------------------------------------------- the phases

  predicate Sane(x: Setup) {
    && Told(x.c1, x.targets.z1) && Told(x.c2, x.targets.z2)
    && LastEdge(x.targets.z1, x.scene) && LastEdge(x.targets.z2, x.scene)
    && (x.targets.z1.Some? || x.targets.z2.Some?)
    && x.belts.z1 == x.targets.z1.Some? && x.belts.z2 == x.targets.z2.Some?
    && (x.targets.z1.Some? ==> x.down1 == x.belts.downstream) && (x.targets.z2.Some? ==> x.down2 == x.belts.downstream)
    && x.plan == Planned(x.scene.before.occupied, x.inCount, x.belts)
    && x.scene == SceneOf(x.scene.before.occupied, x.plan, x.belts.downstream)
    && x.dt > 0.0 && x.lag >= 0.0 && x.lag < x.transit && x.lag + x.dt < x.transfer
  }

  /** Running towards the shift. */
  predicate Rolling(x: Setup, r: Rig) {
    && r.departures == 0 && r.belt.transit.None? && PictureOf(r.belt) == x.scene.before && r.belt.inCount == x.inCount
    && 0.0 <= r.belt.accum < x.transfer
    && Rolls(r.z1, x.c1, x.targets.z1, x.scene.before) && Rolls(r.z2, x.c2, x.targets.z2, x.scene.before)
  }

  predicate InFlight(x: Setup, r: Rig) {
    && r.departures == 1 && r.belt.transit.Some? && r.belt.transit.value.1 == x.plan.arrivals
    && PictureOf(r.belt) == x.scene.gap && r.belt.inCount == x.plan.inCount && r.belt.accum == 0.0
    && r.now < r.belt.transit.value.0 + x.dt
  }

  /** In flight, the firmware not having looked since the departure. */
  predicate FlyingUnseen(x: Setup, r: Rig) {
    && InFlight(x, r)
    && r.unseen >= r.now - (r.belt.transit.value.0 - x.transit)
    && Rolls(r.z1, x.c1, x.targets.z1, x.scene.before) && Rolls(r.z2, x.c2, x.targets.z2, x.scene.before)
  }

  predicate FlyingSeen(x: Setup, r: Rig) {
    InFlight(x, r) && SawGap(r.z1, x.c1, x.targets.z1) && SawGap(r.z2, x.c2, x.targets.z2)
  }

  predicate Down(x: Setup, r: Rig) {
    && r.departures == 1 && r.belt.transit.None? && r.belt.occupied == x.scene.after.occupied
    && r.belt.inCount == x.plan.inCount
  }

  /** Landed, some zone still running because the firmware has not looked. */
  predicate LandedUnseen(x: Setup, r: Rig) {
    && Down(x, r) && PictureOf(r.belt) == x.scene.after && 0.0 <= r.belt.accum <= r.unseen
    && SawGap(r.z1, x.c1, x.targets.z1) && SawGap(r.z2, x.c2, x.targets.z2)
    && (Runs(x.c1, r.z1) || Runs(x.c2, r.z2))
  }

  /** Landed, and everything stands. */
  predicate Done(x: Setup, r: Rig) {
    Down(x, r) && Stands(r.z1, x.c1, x.targets.z1) && Stands(r.z2, x.c2, x.targets.z2)
  }

  predicate OnCourse(x: Setup, r: Rig) {
    0.0 <= r.unseen <= x.lag &&
    (Rolling(x, r) || FlyingUnseen(x, r) || FlyingSeen(x, r) || LandedUnseen(x, r) || Done(x, r))
  }

  // ------------------------------------------------------------ phase by phase

  lemma {:induction false} PlanMoves(s: Shift, hops: seq<Hop>, b: Belts)
    ensures |Plan(s, hops, b).arrivals| >= |s.arrivals|
    ensures |Plan(s, hops, b).arrivals| == |s.arrivals| ==> Plan(s, hops, b).occupied == s.occupied
    decreases |hops|
  {
    if hops != [] {
      PlanMoves(PlanHop(s, hops[0], b), hops[1..], b);
    }
  }

  /** Something is on its way: otherwise no edge would ever show. */
  lemma SomethingMoves(x: Setup)
    requires Sane(x)
    ensures x.plan.arrivals != []
  {
    PlanMoves(Shift(x.scene.before.occupied, x.scene.before.occupied, x.inCount, []), Hops(x.belts.downstream), x.belts);
  }

  lemma RollingMotors(x: Setup, r: Rig)
    requires Sane(x) && Rolls(r.z1, x.c1, x.targets.z1, x.scene.before) && Rolls(r.z2, x.c2, x.targets.z2, x.scene.before)
    ensures BeltsOfMotors(MotorsOf(x, r)) == x.belts && (MotorsOf(x, r).z1Runs || MotorsOf(x, r).z2Runs)
  {
  }

  lemma RollingBelt(x: Setup, r: Rig)
    requires Sane(x) && Rolling(x, r)
    ensures
      var belt := RigTick(x, r, true).belt;
      if r.belt.accum + x.dt < x.transfer then
        belt.transit.None? && PictureOf(belt) == x.scene.before && belt.inCount == x.inCount && belt.accum == r.belt.accum + x.dt
      else
        && belt.transit == Some((r.now + x.transit, x.plan.arrivals)) && PictureOf(belt) == x.scene.gap
        && belt.inCount == x.plan.inCount && belt.accum == 0.0
  {
    RollingMotors(x, r);
    SomethingMoves(x);
  }

  lemma RollingTick(x: Setup, r: Rig, looks: bool)
    requires Sane(x) && OnCourse(x, r) && Rolling(x, r) && Attends(x, r, looks)
    ensures OnCourse(x, RigTick(x, r, looks))
    ensures ToGo(x, RigTick(x, r, looks)) <= ToGo(x, r) - x.dt
  {
    RollingBelt(x, r);
    ZoneLooks(r.z1, x.c1, x.targets.z1, x.scene);
    ZoneLooks(r.z2, x.c2, x.targets.z2, x.scene);
  }

  /** A bound on the seconds until everything stands. */
  function ToGo(x: Setup, r: Rig): real {
    if r.departures == 0 then x.transfer - r.belt.accum + x.transit + x.lag + 3.0 * x.dt
    else if r.belt.transit.Some? then r.belt.transit.value.0 - r.now + x.lag + 2.0 * x.dt
    else x.lag - r.unseen + x.dt
  }

  lemma {:induction false} PlannedHops(s: Shift, hops: seq<Hop>, b: Belts, h: Hop)
    requires h in Plan(s, hops, b).arrivals && h !in s.arrivals
    ensures h in hops && Enabled(h, b)
    decreases |hops|
  {
    if hops != [] {
      var u := PlanHop(s, hops[0], b);
      if h in u.arrivals {
        assert u.arrivals == s.arrivals + [hops[0]];
      } else {
        PlannedHops(u, hops[1..], b, h);
      }
    }
  }

  lemma {:induction false} CrossedMeans(arrivals: seq<Hop>)
    requires forall h :: h in arrivals && h.z1 && h.z2 ==> h.dst != OUT
    ensures Crossed(arrivals) <==> exists h :: h in arrivals && h.z1 && h.z2
  {
    if arrivals != [] {
      forall h | h in arrivals[1..] ensures h in arrivals {
      }
      CrossedMeans(arrivals[1..]);
      assert arrivals[0] in arrivals;
    }
  }

  /** What crosses does so with zone 1 running, and shows at its eye. */
  lemma CrossingShows(x: Setup)
    requires Sane(x)
    ensures Crossed(x.plan.arrivals) <==> exists h :: h in x.plan.arrivals && h.z1 && h.z2
    ensures Crossed(x.plan.arrivals) ==> x.targets.z1.Some?
  {
    forall h | h in x.plan.arrivals ensures h in Hops(x.belts.downstream) && Enabled(h, x.belts) {
      PlannedHops(Shift(x.scene.before.occupied, x.scene.before.occupied, x.inCount, []), Hops(x.belts.downstream), x.belts, h);
    }
    CrossedMeans(x.plan.arrivals);
  }

  lemma FlyingBelt(x: Setup, r: Rig)
    requires Sane(x) && InFlight(x, r)
    ensures
      var belt := RigTick(x, r, true).belt;
      if r.now < r.belt.transit.value.0 then
        belt.transit == r.belt.transit && PictureOf(belt) == x.scene.gap && belt.inCount == x.plan.inCount && belt.accum == 0.0
      else
        && belt.transit.None? && PictureOf(belt) == x.scene.after && belt.inCount == x.plan.inCount && belt.accum == 0.0
  {
    CrossingShows(x);
  }

  lemma FlyingTick(x: Setup, r: Rig, looks: bool)
    requires Sane(x) && OnCourse(x, r) && (FlyingUnseen(x, r) || FlyingSeen(x, r)) && Attends(x, r, looks)
    ensures OnCourse(x, RigTick(x, r, looks))
    ensures !Done(x, RigTick(x, r, looks)) ==> ToGo(x, RigTick(x, r, looks)) <= ToGo(x, r) - x.dt
  {
    FlyingBelt(x, r);
    ZoneLooks(r.z1, x.c1, x.targets.z1, x.scene);
    ZoneLooks(r.z2, x.c2, x.targets.z2, x.scene);
    NothingRuns(x, RigTick(x, r, looks));
  }

  /** With no zone running, a zone that has seen the gap has nothing left to see. */
  lemma NothingRuns(x: Setup, r: Rig)
    requires Sane(x)
    ensures SawGap(r.z1, x.c1, x.targets.z1) && !Runs(x.c1, r.z1) ==> Stands(r.z1, x.c1, x.targets.z1)
    ensures SawGap(r.z2, x.c2, x.targets.z2) && !Runs(x.c2, r.z2) ==> Stands(r.z2, x.c2, x.targets.z2)
  {
  }

  lemma LandedTick(x: Setup, r: Rig, looks: bool)
    requires Sane(x) && OnCourse(x, r) && LandedUnseen(x, r) && Attends(x, r, looks)
    ensures OnCourse(x, RigTick(x, r, looks))
    ensures !Done(x, RigTick(x, r, looks)) ==> ToGo(x, RigTick(x, r, looks)) <= ToGo(x, r) - x.dt
  {
    ZoneLooks(r.z1, x.c1, x.targets.z1, x.scene);
    ZoneLooks(r.z2, x.c2, x.targets.z2, x.scene);
  }

  lemma DoneTick(x: Setup, r: Rig, looks: bool)
    requires Sane(x) && OnCourse(x, r) && Done(x, r) && Attends(x, r, looks)
    ensures OnCourse(x, RigTick(x, r, looks)) && Done(x, RigTick(x, r, looks))
  {
    var belt := RigTick(x, r, looks).belt;
    StandingStays(r.z1, x.c1, x.targets.z1, PictureOf(r.belt));
    StandingStays(r.z2, x.c2, x.targets.z2, PictureOf(r.belt));
    StandingStays(r.z1, x.c1, x.targets.z1, PictureOf(belt));
    StandingStays(r.z2, x.c2, x.targets.z2, PictureOf(belt));
  }

  lemma RigTickKeeps(x: Setup, r: Rig, looks: bool)
    requires Sane(x) && OnCourse(x, r) && Attends(x, r, looks)
    ensures OnCourse(x, RigTick(x, r, looks))
    ensures Done(x, r) ==> Done(x, RigTick(x, r, looks))
    ensures !Done(x, RigTick(x, r, looks)) ==> ToGo(x, RigTick(x, r, looks)) <= ToGo(x, r) - x.dt
  {
    if Done(x, r) {
      DoneTick(x, r, looks);
    } else if Rolling(x, r) {
      RollingTick(x, r, looks);
    } else if LandedUnseen(x, r) {
      LandedTick(x, r, looks);
    } else {
      FlyingTick(x, r, looks);
    }
  }

  // ------------------------------------------------------------- whole runs

  predicate IsRigRun(x: Setup, rigs: seq<Rig>, looks: seq<bool>) {
    && |rigs| == |looks| + 1
    && forall k {:trigger looks[k]} :: 0 <= k < |looks| ==>
         Attends(x, rigs[k], looks[k]) && rigs[k + 1] == RigTick(x, rigs[k], looks[k])
  }

  lemma {:induction false} StaysOnCourse(x: Setup, rigs: seq<Rig>, looks: seq<bool>, k: nat)
    requires Sane(x) && IsRigRun(x, rigs, looks) && OnCourse(x, rigs[0]) && k < |rigs|
    ensures OnCourse(x, rigs[k])
    ensures Done(x, rigs[k]) || ToGo(x, rigs[k]) <= ToGo(x, rigs[0]) - Drain.Seconds(k, x.dt)
  {
    if k > 0 {
      StaysOnCourse(x, rigs, looks, k - 1);
      RigTickKeeps(x, rigs[k - 1], looks[k - 1]);
    }
  }

  lemma StillToGo(x: Setup, r: Rig)
    requires Sane(x) && OnCourse(x, r) && !Done(x, r)
    ensures ToGo(x, r) > 0.0
  {
  }

  /** One request, one shift. However the firmware's looks fall among the belts' ticks,
      as long as it never looks away for a whole flight or a whole transfer, the train
      sets off at most once; and once the transfer, the flight and one look have had
      their time, every zone stands, with every part where the one shift puts it. */
  lemma ShiftsOnce(x: Setup, rigs: seq<Rig>, looks: seq<bool>, k: nat)
    requires Sane(x) && IsRigRun(x, rigs, looks) && Rolling(x, rigs[0]) && rigs[0].unseen == 0.0 && k < |rigs|
    ensures rigs[k].departures <= 1
    ensures Drain.Seconds(k, x.dt) >= ToGo(x, rigs[0]) ==> Done(x, rigs[k])
  {
    StaysOnCourse(x, rigs, looks, k);
    if !Done(x, rigs[k]) {
      StillToGo(x, rigs[k]);
    }
  }

  // -------------------------------------------------- the machine's advance

  /** The belts stand as the machine believes, at rest. */
  predicate AtRest(s: LineState, p: Belt) {
    p.occupied == s.occupancy.Keys && p.inCount == |s.inQueue| && p.transit.None? && p.accum == 0.0 && !p.z1Eye && !p.z2Eye
  }

  /** What the mover asks for this advance, on belts with these times. */
  predicate Asked(x: Setup, s: LineState) {
    var downstream := s.beat != P2;
    && x.targets == ZoneTargets(LiveMoves(s), downstream) && x.belts == BeltsFor(s.beat, LiveMoves(s))
    && x.inCount == |s.inQueue| && x.plan == Shifts(s) && x.scene == SceneOf(s.occupancy.Keys, Shifts(s), downstream)
    && Told(x.c1, x.targets.z1) && Told(x.c2, x.targets.z2)
    && (x.targets.z1.Some? ==> x.down1 == downstream) && (x.targets.z2.Some? ==> x.down2 == downstream)
    && x.dt > 0.0 && x.lag >= 0.0 && x.lag < x.transit && x.lag + x.dt < x.transfer
  }

  lemma AskedEdges(all: seq<PartId>, cfg: Config, s: LineState, x: Setup)
    requires ReadyToAdvance(all, cfg, s) && Asked(x, s)
    ensures LastEdge(x.targets.z1, x.scene) && LastEdge(x.targets.z2, x.scene)
  {
    ScheduledShifts(all, cfg, s);
    ScheduledEdges(all, cfg, s);
  }

  lemma AskedSomething(all: seq<PartId>, cfg: Config, s: LineState)
    requires ReadyToAdvance(all, cfg, s) && LiveMoves(s) != []
    ensures var t := ZoneTargets(LiveMoves(s), s.beat != P2); t.z1.Some? || t.z2.Some?
  {
    ScheduledShape(all, cfg, s);
    ScheduledShifts(all, cfg, s);
    TargetsOf(s.beat, F1 in s.occupancy, O in s.occupancy, F2 in s.occupancy, |s.inQueue| > 0);
  }

  lemma AskedIsSane(all: seq<PartId>, cfg: Config, s: LineState, x: Setup)
    requires ReadyToAdvance(all, cfg, s) && LiveMoves(s) != [] && Asked(x, s)
    ensures Sane(x)
  {
    AskedEdges(all, cfg, s, x);
    AskedSomething(all, cfg, s);
  }

  /** A request taken up by both zones over belts at rest. */
  predicate TakenUp(x: Setup, s: LineState, r: Rig) {
    && AtRest(s, r.belt) && r.unseen == 0.0 && r.departures == 0
    && Rolls(r.z1, x.c1, x.targets.z1, x.scene.before) && Rolls(r.z2, x.c2, x.targets.z2, x.scene.before)
  }

  /** The scheduled advance on belts and firmware: one shift, and when everything stands
      the parts stand where the machine's own map then shows them. */
  lemma AdvanceShiftsOnce(
    all: seq<PartId>, cfg: Config, s: LineState, x: Setup, rigs: seq<Rig>, looks: seq<bool>, k: nat)
    requires ReadyToAdvance(all, cfg, s) && LiveMoves(s) != [] && Asked(x, s)
    requires IsRigRun(x, rigs, looks) && TakenUp(x, s, rigs[0]) && k < |rigs|
    ensures rigs[k].departures <= 1
    ensures Drain.Seconds(k, x.dt) >= x.transfer + x.transit + x.lag + 3.0 * x.dt ==>
      && Done(x, rigs[k]) && rigs[k].belt.occupied == LayoutOf(Advanced(s)).occupancy.Keys
      && rigs[k].belt.inCount == |LayoutOf(Advanced(s)).inQueue|
  {
    AskedIsSane(all, cfg, s, x);
    ShiftsOnce(x, rigs, looks, k);
    AdvanceLandsWhereBelieved(all, cfg, s);
  }
}

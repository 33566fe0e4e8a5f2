/** The train advance: which sensor edge stops which belt, played against belts that
    carry parts in two phases, sources first and destinations after a gap. */
module Train {
  import opened Model
  import opened Schedule
  import opened Machine
  import opened Moves
  import opened Pattern
  import opened Safety
  import opened Recovery
  import ClosedLoop
  import FL = FakeLine
  import Firmware

  // ----------------------------------------------------------- stop targets

  datatype Sensor = F1Eye | OEye | F2Eye | Z1Eye | Z2Eye

  /** A sensor edge: which eye, and whether it falls. */
  datatype Target = Target(sensor: Sensor, falling: bool)

  datatype Targets = Targets(z1: Option<Target>, z2: Option<Target>)

  /** The last event of each zone's part of the shift. */
  function ZoneTargets(moves: seq<Move>, downstream: bool): Targets {
    if downstream then
      Targets(
        if Move(IN, F1) in moves then Some(Target(F1Eye, false))
        else if Move(F1, O) in moves then Some(Target(Z2Eye, false)) else None,
        if Move(O, F2) in moves then Some(Target(F2Eye, false))
        else if Move(F2, OUT) in moves then Some(Target(F2Eye, true))
        else if Move(F1, O) in moves then Some(Target(OEye, false)) else None)
    else
      Targets(
        if Move(O, F1) in moves then Some(Target(F1Eye, false)) else None,
        if Move(F2, O) in moves then Some(Target(OEye, false))
        else if Move(O, F1) in moves then Some(Target(Z1Eye, false)) else None)
  }

  /** The same, filling a dictionary branch by branch. */
  method ZoneTargetsOf(moves: seq<Move>, downstream: bool) returns (targets: map<int, Target>)
    ensures targets.Keys <= {1, 2}
    ensures
      var t := ZoneTargets(moves, downstream);
      && t.z1 == (if 1 in targets then Some(targets[1]) else None)
      && t.z2 == (if 2 in targets then Some(targets[2]) else None)
  {
    targets := map[];
    if downstream {
      if Move(IN, F1) in moves { targets := targets[1 := Target(F1Eye, false)]; }
      else if Move(F1, O) in moves { targets := targets[1 := Target(Z2Eye, false)]; }
      if Move(O, F2) in moves { targets := targets[2 := Target(F2Eye, false)]; }
      else if Move(F2, OUT) in moves { targets := targets[2 := Target(F2Eye, true)]; }
      else if Move(F1, O) in moves { targets := targets[2 := Target(OEye, false)]; }
    } else {
      if Move(O, F1) in moves { targets := targets[1 := Target(F1Eye, false)]; }
      if Move(F2, O) in moves { targets := targets[2 := Target(OEye, false)]; }
      else if Move(O, F1) in moves { targets := targets[2 := Target(Z1Eye, false)]; }
    }
  }

  // ---------------------------------------------------------------- physics

  /** A hop of the belts and whether it needs zone 1, zone 2 or both. */
  datatype Hop = Hop(src: Station, dst: Station, z1: bool, z2: bool)

  function Hops(downstream: bool): seq<Hop> {
    if downstream then
      [Hop(F2, OUT, false, true), Hop(O, F2, false, true), Hop(F1, O, true, true), Hop(IN, F1, true, false)]
    else
      [Hop(O, F1, true, true), Hop(F2, O, false, true)]
  }

  /** Which zones run, and the direction they share. */
  datatype Belts = Belts(z1: bool, z2: bool, downstream: bool, feed: bool)

  predicate Enabled(h: Hop, b: Belts) {
    (h.z1 ==> b.z1) && (h.z2 ==> b.z2)
  }

  /** The shift being planned: the map as it will be, the map with the sources gone,
      the queue, and what is on its way. */
  datatype Shift = Shift(work: set<Station>, occupied: set<Station>, inCount: nat, arrivals: seq<Hop>)

  function PlanHop(s: Shift, h: Hop, b: Belts): Shift {
    if !Enabled(h, b) then s
    else if h.src == IN then
      if b.feed && s.inCount > 0 && F1 !in s.work
      then s.(inCount := s.inCount - 1, arrivals := s.arrivals + [h], work := s.work + {F1})
      else s
    else if h.src !in s.work || (h.dst != OUT && h.dst in s.work) then s
    else
      var vacated := s.work - {h.src};
      Shift(if h.dst == OUT then vacated else vacated + {h.dst}, s.occupied - {h.src}, s.inCount, s.arrivals + [h])
  }

  function Plan(s: Shift, hops: seq<Hop>, b: Belts): Shift
    decreases |hops|
  {
    if hops == [] then s else Plan(PlanHop(s, hops[0], b), hops[1..], b)
  }

  /** What the gap leaves standing, and what lands after it. */
  function Planned(occupied: set<Station>, inCount: nat, b: Belts): Shift {
    Plan(Shift(occupied, occupied, inCount, []), Hops(b.downstream), b)
  }

  function Landed(occupied: set<Station>, arrivals: seq<Hop>): set<Station>
    decreases |arrivals|
  {
    if arrivals == [] then occupied
    else Landed(if arrivals[0].dst == OUT then occupied else occupied + {arrivals[0].dst}, arrivals[1..])
  }

  // ---------------------------------------------------- the reachable shapes

  /** Who stands where before an advance on schedule: numbers are contiguous, so a
      station can be empty only at either end of the batch. */
  predicate Shape(b: Beat, f1: bool, o: bool, f2: bool, waiting: bool) {
    match b
    case P1 => (f1 ==> o) && (waiting && (o || f2) ==> f1)
    case P2 => !f1 && (o ==> f2)
    case P3 => !f2 && (f1 ==> o) && (waiting && o ==> f1)
    case P4 => (o ==> f2) && (f1 && f2 ==> o) && (waiting ==> f1)
  }

  lemma NumbersShape(all: seq<PartId>, b: Beat, j: int, waiting: bool)
    requires j >= -1 && (waiting <==> Clamp(NextNumber(b, j), |all|) < |all|)
    ensures Shape(b, Occupant(all, b, j, F1).Some?, Occupant(all, b, j, O).Some?, Occupant(all, b, j, F2).Some?, waiting)
  {
  }

  lemma ScheduledShape(all: seq<PartId>, cfg: Config, s: LineState)
    requires OnSchedule(all, cfg, s) && !AfterMove(s)
    ensures Shape(s.beat, F1 in s.occupancy, O in s.occupancy, F2 in s.occupancy, s.inQueue != [])
    ensures s.occupancy.Keys <= {F1, O, F2}
    ensures forall st :: st in s.occupancy ==> s.occupancy[st] != EmptyId
  {
    var b, j := s.beat, s.pairIndex - 1;
    ScheduledIdsNamed(all, cfg, s);
    assert LayoutOf(s).inQueue == s.inQueue;
    NumbersShape(all, b, j, s.inQueue != []);
    assert Occupant(all, b, j, IN).None? && Occupant(all, b, j, OUT).None?;
  }

  function When(live: bool, m: Move): seq<Move> {
    if live then [m] else []
  }

  /** The live moves of each shape. */
  function ShapeMoves(b: Beat, f1: bool, o: bool, f2: bool, waiting: bool): seq<Move> {
    match b
    case P1 => When(f2, Move(F2, OUT)) + When(o, Move(O, F2)) + When(f1, Move(F1, O))
    case P2 => When(o, Move(O, F1)) + When(f2, Move(F2, O))
    case P3 => When(o, Move(O, F2)) + When(f1, Move(F1, O)) + When(waiting, Move(IN, F1))
    case P4 => When(f2, Move(F2, OUT)) + When(o, Move(O, F2)) + When(f1, Move(F1, O)) + When(waiting, Move(IN, F1))
  }

  lemma FilterCons(s: LineState, m: Move, rest: seq<Move>)
    ensures Filter(s, [m] + rest) == When(IsLive(s, m), m) + Filter(s, rest)
  {
    assert ([m] + rest)[0] == m && ([m] + rest)[1..] == rest;
  }

  lemma FilterTwo(s: LineState, a: Move, b: Move)
    ensures Filter(s, [a, b]) == When(IsLive(s, a), a) + When(IsLive(s, b), b)
  {
    FilterCons(s, b, []);
    assert [b] + [] == [b];
    FilterCons(s, a, [b]);
    assert [a] + [b] == [a, b];
  }

  lemma FilterThree(s: LineState, a: Move, b: Move, c: Move)
    ensures Filter(s, [a, b, c]) == When(IsLive(s, a), a) + When(IsLive(s, b), b) + When(IsLive(s, c), c)
  {
    FilterTwo(s, b, c);
    FilterCons(s, a, [b, c]);
    assert [a] + [b, c] == [a, b, c];
  }

  lemma FilterFour(s: LineState, a: Move, b: Move, c: Move, d: Move)
    ensures Filter(s, [a, b, c, d]) ==
      When(IsLive(s, a), a) + When(IsLive(s, b), b) + When(IsLive(s, c), c) + When(IsLive(s, d), d)
  {
    FilterThree(s, b, c, d);
    FilterCons(s, a, [b, c, d]);
    assert [a] + [b, c, d] == [a, b, c, d];
  }

  lemma LiveShape(s: LineState)
    requires s.occupancy.Keys <= {F1, O, F2} && forall st :: st in s.occupancy ==> s.occupancy[st] != EmptyId
    ensures LiveMoves(s) ==
      ShapeMoves(s.beat, F1 in s.occupancy, O in s.occupancy, F2 in s.occupancy, s.inQueue != [])
  {
    match s.beat
    case P1 => FilterThree(s, Move(F2, OUT), Move(O, F2), Move(F1, O));
    case P2 => FilterTwo(s, Move(O, F1), Move(F2, O));
    case P3 => FilterThree(s, Move(O, F2), Move(F1, O), Move(IN, F1));
    case P4 => FilterFour(s, Move(F2, OUT), Move(O, F2), Move(F1, O), Move(IN, F1));
  }

  function Occupied(f1: bool, o: bool, f2: bool): set<Station> {
    (if f1 then {F1} else {}) + (if o then {O} else {}) + (if f2 then {F2} else {})
  }

  /** The belts the mover runs for a move set: those with a stop target, and the feed
      belt only for a part coming in. */
  function BeltsFor(b: Beat, moves: seq<Move>): Belts {
    var t := ZoneTargets(moves, b != P2);
    Belts(t.z1.Some?, t.z2.Some?, b != P2, Move(IN, F1) in moves)
  }

  // --------------------------------------------------------------- the shift

  function Arriving(goes: bool, h: Hop): seq<Hop> {
    if goes then [h] else []
  }

  const OutHop := Hop(F2, OUT, false, true)
  const FlashHop := Hop(O, F2, false, true)
  const CrossHop := Hop(F1, O, true, true)
  const FeedHop := Hop(IN, F1, true, false)
  const RetreatHop := Hop(O, F1, true, true)
  const ReturnHop := Hop(F2, O, false, true)

  lemma PlanCons(s: Shift, h: Hop, rest: seq<Hop>, b: Belts)
    ensures Plan(s, [h] + rest, b) == Plan(PlanHop(s, h, b), rest, b)
  {
    assert ([h] + rest)[0] == h && ([h] + rest)[1..] == rest;
  }

  lemma PlanDown(s: Shift, b: Belts)
    requires b.downstream
    ensures Plan(s, Hops(true), b) ==
      PlanHop(PlanHop(PlanHop(PlanHop(s, OutHop, b), FlashHop, b), CrossHop, b), FeedHop, b)
  {
    var s1 := PlanHop(s, OutHop, b);
    var s2 := PlanHop(s1, FlashHop, b);
    var s3 := PlanHop(s2, CrossHop, b);
    assert Hops(true) == [OutHop] + ([FlashHop] + ([CrossHop] + ([FeedHop] + [])));
    PlanCons(s, OutHop, [FlashHop] + ([CrossHop] + ([FeedHop] + [])), b);
    PlanCons(s1, FlashHop, [CrossHop] + ([FeedHop] + []), b);
    PlanCons(s2, CrossHop, [FeedHop] + [], b);
    PlanCons(s3, FeedHop, [], b);
  }

  lemma PlanUp(s: Shift, b: Belts)
    requires !b.downstream
    ensures Plan(s, Hops(false), b) == PlanHop(PlanHop(s, RetreatHop, b), ReturnHop, b)
  {
    var s1 := PlanHop(s, RetreatHop, b);
    assert Hops(false) == [RetreatHop] + ([ReturnHop] + []);
    PlanCons(s, RetreatHop, [ReturnHop] + [], b);
    PlanCons(s1, ReturnHop, [], b);
  }

  /** Zone 2 carries what stands on it, the handoff needs both zones, and the queue
      gives a part only with the feed running and F1 free. */
  lemma PlannedDown(f1: bool, o: bool, f2: bool, inCount: nat, b: Belts)
    requires b.downstream
    ensures
      var cross := b.z1 && b.z2 && f1;
      var fed := b.z1 && b.feed && inCount > 0 && (f1 ==> b.z2);
      Planned(Occupied(f1, o, f2), inCount, b) ==
        Shift(Occupied((f1 && !cross) || fed, (o && !b.z2) || cross, (f2 && !b.z2) || (b.z2 && o)),
              Occupied(f1 && !cross, o && !b.z2, f2 && !b.z2),
              if fed then inCount - 1 else inCount,
              Arriving(b.z2 && f2, OutHop) + Arriving(b.z2 && o, FlashHop) + Arriving(cross, CrossHop) + Arriving(fed, FeedHop))
  {
    var s := Shift(Occupied(f1, o, f2), Occupied(f1, o, f2), inCount, []);
    PlanDown(s, b);
    var s1 := PlanHop(s, OutHop, b);
    assert s1 == Shift(Occupied(f1, o, f2 && !b.z2), Occupied(f1, o, f2 && !b.z2), inCount, Arriving(b.z2 && f2, OutHop));
    var s2 := PlanHop(s1, FlashHop, b);
    assert s2 == Shift(Occupied(f1, o && !b.z2, (f2 && !b.z2) || (b.z2 && o)), Occupied(f1, o && !b.z2, f2 && !b.z2),
                       inCount, Arriving(b.z2 && f2, OutHop) + Arriving(b.z2 && o, FlashHop));
    PlannedCross(s2, f1, o, f2, inCount, b);
  }

  /** The handoff and the feed, after zone 2 has been planned. */
  lemma PlannedCross(s2: Shift, f1: bool, o: bool, f2: bool, inCount: nat, b: Belts)
    requires s2.work == Occupied(f1, o && !b.z2, (f2 && !b.z2) || (b.z2 && o))
    requires s2.occupied == Occupied(f1, o && !b.z2, f2 && !b.z2) && s2.inCount == inCount
    ensures
      var cross := b.z1 && b.z2 && f1;
      var fed := b.z1 && b.feed && inCount > 0 && (f1 ==> b.z2);
      PlanHop(PlanHop(s2, CrossHop, b), FeedHop, b) ==
        Shift(Occupied((f1 && !cross) || fed, (o && !b.z2) || cross, (f2 && !b.z2) || (b.z2 && o)),
              Occupied(f1 && !cross, o && !b.z2, f2 && !b.z2),
              if fed then inCount - 1 else inCount,
              s2.arrivals + Arriving(cross, CrossHop) + Arriving(fed, FeedHop))
  {
    var cross := b.z1 && b.z2 && f1;
    var s3 := PlanHop(s2, CrossHop, b);
    assert s3 == Shift(Occupied(f1 && !cross, (o && !b.z2) || cross, (f2 && !b.z2) || (b.z2 && o)),
                       Occupied(f1 && !cross, o && !b.z2, f2 && !b.z2), inCount, s2.arrivals + Arriving(cross, CrossHop));
  }

  lemma PlannedUp(f1: bool, o: bool, f2: bool, inCount: nat, b: Belts)
    requires !b.downstream && !f1
    ensures
      var back := b.z1 && b.z2 && o;
      var home := b.z2 && f2 && (o ==> b.z1);
      Planned(Occupied(f1, o, f2), inCount, b) ==
        Shift(Occupied(back, (o && !back) || home, f2 && !home), Occupied(false, o && !back, f2 && !home), inCount,
              Arriving(back, RetreatHop) + Arriving(home, ReturnHop))
  {
    PlanUp(Shift(Occupied(f1, o, f2), Occupied(f1, o, f2), inCount, []), b);
  }

  lemma LandedCons(occupied: set<Station>, goes: bool, h: Hop, rest: seq<Hop>)
    ensures Landed(occupied, Arriving(goes, h) + rest) ==
      Landed(if goes && h.dst != OUT then occupied + {h.dst} else occupied, rest)
  {
    if goes {
      assert ([h] + rest)[0] == h && ([h] + rest)[1..] == rest;
    } else {
      assert [] + rest == rest;
    }
  }

  lemma CarriedCons(occupied: set<Station>, goes: bool, m: Move, rest: seq<Move>)
    ensures FL.Carried(occupied, When(goes, m) + rest) ==
      FL.Carried(if !goes then occupied else if m.dst == OUT then occupied - {m.src} else occupied - {m.src} + {m.dst}, rest)
  {
    if goes {
      assert ([m] + rest)[0] == m && ([m] + rest)[1..] == rest;
    } else {
      assert [] + rest == rest;
    }
  }

  lemma LandedDown(occupied: set<Station>, a: bool, b: bool, c: bool, d: bool)
    ensures Landed(occupied, Arriving(a, OutHop) + Arriving(b, FlashHop) + Arriving(c, CrossHop) + Arriving(d, FeedHop)) ==
      occupied + (if b then {F2} else {}) + (if c then {O} else {}) + (if d then {F1} else {})
  {
    var w, x, y, z := Arriving(a, OutHop), Arriving(b, FlashHop), Arriving(c, CrossHop), Arriving(d, FeedHop);
    assert w + x + y + z == w + (x + (y + (z + [])));
    LandedCons(occupied, a, OutHop, x + (y + (z + [])));
    LandedCons(occupied, b, FlashHop, y + (z + []));
    var o2 := if b then occupied + {F2} else occupied;
    LandedCons(o2, c, CrossHop, z + []);
    var o3 := if c then o2 + {O} else o2;
    LandedCons(o3, d, FeedHop, []);
  }

  lemma LandedUp(occupied: set<Station>, a: bool, b: bool)
    ensures Landed(occupied, Arriving(a, RetreatHop) + Arriving(b, ReturnHop)) ==
      occupied + (if a then {F1} else {}) + (if b then {O} else {})
  {
    assert Arriving(b, ReturnHop) + [] == Arriving(b, ReturnHop);
    LandedCons(occupied, a, RetreatHop, Arriving(b, ReturnHop));
    LandedCons(if a then occupied + {F1} else occupied, b, ReturnHop, []);
  }

  /** The bookkeeping of a downstream shift, move by move. */
  lemma CarriedDown(f1: bool, o: bool, f2: bool, d: bool)
    ensures FL.Carried(Occupied(f1, o, f2),
        When(f2, Move(F2, OUT)) + When(o, Move(O, F2)) + When(f1, Move(F1, O)) + When(d, Move(IN, F1))) ==
      Occupied(d, f1, o)
  {
    var w, x, y, z := When(f2, Move(F2, OUT)), When(o, Move(O, F2)), When(f1, Move(F1, O)), When(d, Move(IN, F1));
    assert w + x + y + z == w + (x + (y + (z + [])));
    CarriedCons(Occupied(f1, o, f2), f2, Move(F2, OUT), x + (y + (z + [])));
    assert Occupied(f1, o, f2) - {F2} == Occupied(f1, o, false);
    CarriedCons(Occupied(f1, o, false), o, Move(O, F2), y + (z + []));
    assert Occupied(f1, true, false) - {O} + {F2} == Occupied(f1, false, true);
    CarriedCons(Occupied(f1, false, o), f1, Move(F1, O), z + []);
    assert Occupied(true, false, o) - {F1} + {O} == Occupied(false, true, o);
    CarriedCons(Occupied(false, f1, o), d, Move(IN, F1), []);
    assert Occupied(false, f1, o) - {IN} + {F1} == Occupied(true, f1, o);
  }

  lemma CarriedUp(o: bool, f2: bool)
    ensures FL.Carried(Occupied(false, o, f2), When(o, Move(O, F1)) + When(f2, Move(F2, O))) == Occupied(o, f2, false)
  {
    var x := When(f2, Move(F2, O));
    assert x == x + [];
    CarriedCons(Occupied(false, o, f2), o, Move(O, F1), x);
    assert Occupied(false, true, f2) - {O} + {F1} == Occupied(true, false, f2);
    CarriedCons(Occupied(o, false, f2), f2, Move(F2, O), []);
    assert Occupied(o, false, true) - {F2} + {O} == Occupied(o, true, false);
  }

  /** Which belts a shape's moves run. */
  lemma BeltsOf(b: Beat, f1: bool, o: bool, f2: bool, waiting: bool)
    ensures
      var feeds := waiting && (b == P3 || b == P4);
      var leaves := f2 && (b == P1 || b == P4);
      BeltsFor(b, ShapeMoves(b, f1, o, f2, waiting)) ==
        if b == P2 then Belts(o, f2 || o, false, false) else Belts(feeds || f1, o || leaves || f1, true, feeds)
  {
    var moves := ShapeMoves(b, f1, o, f2, waiting);
    assert Move(F1, O) in moves <==> b != P2 && f1;
    assert Move(O, F2) in moves <==> b != P2 && o;
    assert Move(F2, OUT) in moves <==> (b == P1 || b == P4) && f2;
    assert Move(IN, F1) in moves <==> (b == P3 || b == P4) && waiting;
    assert Move(O, F1) in moves <==> b == P2 && o;
    assert Move(F2, O) in moves <==> b == P2 && f2;
  }

  /** Where the physical shift leaves everything. */
  predicate ShiftsAsBelieved(b: Beat, f1: bool, o: bool, f2: bool, inCount: nat) {
    var moves := ShapeMoves(b, f1, o, f2, inCount > 0);
    var p := Planned(Occupied(f1, o, f2), inCount, BeltsFor(b, moves));
    && Landed(p.occupied, p.arrivals) == FL.Carried(Occupied(f1, o, f2), moves)
    && p.inCount == inCount - (if Move(IN, F1) in moves then 1 else 0)
  }

  lemma ShapeSplits(b: Beat, f1: bool, o: bool, f2: bool, waiting: bool)
    requires b != P2
    ensures
      var feeds := waiting && (b == P3 || b == P4);
      Shape(b, f1, o, f2, waiting) ==>
        ShapeMoves(b, f1, o, f2, waiting) ==
          When(f2, Move(F2, OUT)) + When(o, Move(O, F2)) + When(f1, Move(F1, O)) + When(feeds, Move(IN, F1))
        && (Move(IN, F1) in ShapeMoves(b, f1, o, f2, waiting) <==> feeds)
  {
  }

  lemma AllLand(d: bool, c: bool, b: bool)
    ensures Occupied(false, false, false) + (if b then {F2} else {}) + (if c then {O} else {}) + (if d then {F1} else {}) ==
      Occupied(d, c, b)
  {
  }

  lemma ShiftsDown(b: Beat, f1: bool, o: bool, f2: bool, inCount: nat)
    requires b != P2 && Shape(b, f1, o, f2, inCount > 0)
    ensures ShiftsAsBelieved(b, f1, o, f2, inCount)
  {
    var waiting := inCount > 0;
    var feeds := waiting && (b == P3 || b == P4);
    var belts := BeltsFor(b, ShapeMoves(b, f1, o, f2, waiting));
    BeltsOf(b, f1, o, f2, waiting);
    PlannedDown(f1, o, f2, inCount, belts);
    CarriedDown(f1, o, f2, feeds);
    var p := Planned(Occupied(f1, o, f2), inCount, belts);
    assert p.occupied == Occupied(false, false, false);
    LandedDown(p.occupied, belts.z2 && f2, belts.z2 && o, belts.z1 && belts.z2 && f1, feeds);
    AllLand(feeds, f1, o);
    ShapeSplits(b, f1, o, f2, waiting);
  }

  lemma ShiftsUp(f1: bool, o: bool, f2: bool, inCount: nat)
    requires Shape(P2, f1, o, f2, inCount > 0)
    ensures ShiftsAsBelieved(P2, f1, o, f2, inCount)
  {
    var belts := BeltsFor(P2, ShapeMoves(P2, f1, o, f2, inCount > 0));
    BeltsOf(P2, f1, o, f2, inCount > 0);
    PlannedUp(f1, o, f2, inCount, belts);
    CarriedUp(o, f2);
    var p := Planned(Occupied(f1, o, f2), inCount, belts);
    LandedUp(p.occupied, belts.z1 && belts.z2 && o, belts.z2 && f2 && (o ==> belts.z1));
  }

  lemma KeysAre(s: LineState)
    requires s.occupancy.Keys <= {F1, O, F2}
    ensures s.occupancy.Keys == Occupied(F1 in s.occupancy, O in s.occupancy, F2 in s.occupancy)
  {
  }

  lemma ScheduledShifts(all: seq<PartId>, cfg: Config, s: LineState)
    requires OnSchedule(all, cfg, s) && !AfterMove(s)
    ensures s.occupancy.Keys == Occupied(F1 in s.occupancy, O in s.occupancy, F2 in s.occupancy)
    ensures LiveMoves(s) == ShapeMoves(s.beat, F1 in s.occupancy, O in s.occupancy, F2 in s.occupancy, |s.inQueue| > 0)
    ensures ShiftsAsBelieved(s.beat, F1 in s.occupancy, O in s.occupancy, F2 in s.occupancy, |s.inQueue|)
  {
    ScheduledShape(all, cfg, s);
    LiveShape(s);
    KeysAre(s);
    if s.beat == P2 {
      ShiftsUp(F1 in s.occupancy, O in s.occupancy, F2 in s.occupancy, |s.inQueue|);
    } else {
      ShiftsDown(s.beat, F1 in s.occupancy, O in s.occupancy, F2 in s.occupancy, |s.inQueue|);
    }
  }

  /** What the belts do when the mover runs them for this state's advance. */
  function Shifts(s: LineState): Shift {
    Planned(s.occupancy.Keys, |s.inQueue|, BeltsFor(s.beat, LiveMoves(s)))
  }

  lemma BelievedKeys(all: seq<PartId>, cfg: Config, s: LineState)
    requires ReadyToAdvance(all, cfg, s)
    ensures FL.Carried(s.occupancy.Keys, LiveMoves(s)) == LayoutOf(Advanced(s)).occupancy.Keys
    ensures |LayoutOf(Advanced(s)).inQueue| == |s.inQueue| - (if Move(IN, F1) in LiveMoves(s) then 1 else 0)
  {
    var u := s.(inFlight := LiveMoves(s));
    LiveMovesDepend(s, u);
    FlightCarriesOver(all, cfg, s, u);
    ClosedLoop.FlightIsLoaded(all, cfg, u);
    ClosedLoop.CarriedIsShifted(LayoutOf(s), LiveMoves(s));
    ScheduledIdsNamed(all, cfg, s);
    AdvanceIsShift(s);
    LiveIs(s, Move(IN, F1));
    PlaceOf(all, cfg, s, IN);
    FeedOnlyLate(s.beat);
  }

  lemma FeedOnlyLate(b: Beat)
    ensures Move(IN, F1) in TransitionMoves(b) <==> Vacates(b, IN)
  {
    assert TransitionMoves(P3)[2] == Move(IN, F1) && TransitionMoves(P4)[3] == Move(IN, F1);
  }

  lemma FlightCarriesOver(all: seq<PartId>, cfg: Config, s: LineState, u: LineState)
    requires ReadyToAdvance(all, cfg, s) && u == s.(inFlight := LiveMoves(s))
    ensures OnSchedule(all, cfg, u)
  {
    LaunchKeeps(all, cfg, s, u);
  }

  /** The advance lands where the machine believes: on every scheduled advance the
      belts the mover starts carry exactly the parts the machine moves, to exactly
      the stations its own map then shows, and take in a part just when it does. */
  lemma AdvanceLandsWhereBelieved(all: seq<PartId>, cfg: Config, s: LineState)
    requires ReadyToAdvance(all, cfg, s)
    ensures Landed(Shifts(s).occupied, Shifts(s).arrivals) == LayoutOf(Advanced(s)).occupancy.Keys
    ensures Shifts(s).inCount == |LayoutOf(Advanced(s)).inQueue|
  {
    ScheduledShifts(all, cfg, s);
    BelievedKeys(all, cfg, s);
  }

  // ------------------------------------------------------------ the stop edges

  /** The eyes as one tick of the firmware reads them. */
  datatype Picture = Picture(occupied: set<Station>, z1Eye: bool, z2Eye: bool)

  function Level(p: Picture, sensor: Sensor): bool {
    match sensor
    case F1Eye => F1 in p.occupied
    case OEye => O in p.occupied
    case F2Eye => F2 in p.occupied
    case Z1Eye => p.z1Eye
    case Z2Eye => p.z2Eye
  }

  /** Before the shift, in the gap, and after it; the handoff eyes start low. */
  datatype Scene = Scene(before: Picture, gap: Picture, after: Picture)

  function SceneOf(occupied: set<Station>, p: Shift, downstream: bool): Scene {
    var crossed := exists h :: h in p.arrivals && h.z1 && h.z2;
    Scene(Picture(occupied, false, false), Picture(p.occupied, false, false),
          Picture(Landed(p.occupied, p.arrivals), crossed && !downstream, crossed && downstream))
  }

  /** The armed edge is the one that comes last: a rise that only the landing makes,
      or, for the one move that lands nothing on the line, the fall of the departure. */
  predicate EdgeIsLast(t: Target, s: Scene) {
    if t.falling then Level(s.before, t.sensor) && !Level(s.gap, t.sensor) && !Level(s.after, t.sensor)
    else !Level(s.gap, t.sensor) && Level(s.after, t.sensor)
  }

  predicate EdgesAreLast(b: Beat, f1: bool, o: bool, f2: bool, inCount: nat) {
    var moves := ShapeMoves(b, f1, o, f2, inCount > 0);
    var t := ZoneTargets(moves, b != P2);
    var p := Planned(Occupied(f1, o, f2), inCount, BeltsFor(b, moves));
    var s := SceneOf(Occupied(f1, o, f2), p, b != P2);
    && (t.z1.Some? ==> EdgeIsLast(t.z1.value, s) && !t.z1.value.falling)
    && (t.z2.Some? ==> EdgeIsLast(t.z2.value, s) && (t.z2.value.falling ==> moves == [Move(F2, OUT)]))
  }

  lemma TargetsOf(b: Beat, f1: bool, o: bool, f2: bool, waiting: bool)
    ensures
      var feeds := waiting && (b == P3 || b == P4);
      var leaves := f2 && (b == P1 || b == P4);
      ZoneTargets(ShapeMoves(b, f1, o, f2, waiting), b != P2) ==
        if b == P2 then
          Targets(if o then Some(Target(F1Eye, false)) else None,
                  if f2 then Some(Target(OEye, false)) else if o then Some(Target(Z1Eye, false)) else None)
        else
          Targets(if feeds then Some(Target(F1Eye, false)) else if f1 then Some(Target(Z2Eye, false)) else None,
                  if o then Some(Target(F2Eye, false)) else if leaves then Some(Target(F2Eye, true))
                  else if f1 then Some(Target(OEye, false)) else None)
  {
    var moves := ShapeMoves(b, f1, o, f2, waiting);
    assert Move(F1, O) in moves <==> b != P2 && f1;
    assert Move(O, F2) in moves <==> b != P2 && o;
    assert Move(F2, OUT) in moves <==> (b == P1 || b == P4) && f2;
    assert Move(IN, F1) in moves <==> (b == P3 || b == P4) && waiting;
    assert Move(O, F1) in moves <==> b == P2 && o;
    assert Move(F2, O) in moves <==> b == P2 && f2;
  }

  lemma CrossingSeen(f1: bool, o: bool, f2: bool, cross: bool, fed: bool, z2: bool)
    ensures
      var arrivals := Arriving(z2 && f2, OutHop) + Arriving(z2 && o, FlashHop) + Arriving(cross, CrossHop) + Arriving(fed, FeedHop);
      (exists h :: h in arrivals && h.z1 && h.z2) <==> cross
  {
    var arrivals := Arriving(z2 && f2, OutHop) + Arriving(z2 && o, FlashHop) + Arriving(cross, CrossHop) + Arriving(fed, FeedHop);
    assert cross ==> CrossHop in arrivals;
  }

  lemma EdgesDown(b: Beat, f1: bool, o: bool, f2: bool, inCount: nat)
    requires b != P2 && Shape(b, f1, o, f2, inCount > 0)
    ensures EdgesAreLast(b, f1, o, f2, inCount)
  {
    var waiting := inCount > 0;
    var feeds := waiting && (b == P3 || b == P4);
    var belts := BeltsFor(b, ShapeMoves(b, f1, o, f2, waiting));
    BeltsOf(b, f1, o, f2, waiting);
    TargetsOf(b, f1, o, f2, waiting);
    PlannedDown(f1, o, f2, inCount, belts);
    var p := Planned(Occupied(f1, o, f2), inCount, belts);
    LandedDown(p.occupied, belts.z2 && f2, belts.z2 && o, belts.z1 && belts.z2 && f1, feeds);
    CrossingSeen(f1, o, f2, belts.z1 && belts.z2 && f1, feeds, belts.z2);
  }

  lemma EdgesUp(f1: bool, o: bool, f2: bool, inCount: nat)
    requires Shape(P2, f1, o, f2, inCount > 0)
    ensures EdgesAreLast(P2, f1, o, f2, inCount)
  {
    var belts := BeltsFor(P2, ShapeMoves(P2, f1, o, f2, inCount > 0));
    BeltsOf(P2, f1, o, f2, inCount > 0);
    TargetsOf(P2, f1, o, f2, inCount > 0);
    PlannedUp(f1, o, f2, inCount, belts);
    var p := Planned(Occupied(f1, o, f2), inCount, belts);
    LandedUp(p.occupied, belts.z1 && belts.z2 && o, belts.z2 && f2 && (o ==> belts.z1));
    assert o ==> RetreatHop in p.arrivals;
  }

  /** On every scheduled advance each armed edge is the last event of its zone. */
  lemma ScheduledEdges(all: seq<PartId>, cfg: Config, s: LineState)
    requires OnSchedule(all, cfg, s) && !AfterMove(s)
    ensures EdgesAreLast(s.beat, F1 in s.occupancy, O in s.occupancy, F2 in s.occupancy, |s.inQueue|)
  {
    ScheduledShape(all, cfg, s);
    if s.beat == P2 {
      EdgesUp(F1 in s.occupancy, O in s.occupancy, F2 in s.occupancy, |s.inQueue|);
    } else {
      EdgesDown(s.beat, F1 in s.occupancy, O in s.occupancy, F2 in s.occupancy, |s.inQueue|);
    }
  }

  // ------------------------------------------------------ the final pattern

  /** The mover's check after the belts have stopped: every destination present, every
      station that is only a source empty. */
  predicate PostShift(moves: seq<Move>, occupied: set<Station>) {
    && (forall m :: m in moves && m.dst != OUT ==> m.dst in occupied)
    && (forall m :: m in moves && m.src != IN && (forall n :: n in moves ==> n.dst != m.src) ==> m.src !in occupied)
  }

  lemma InShape(b: Beat, f1: bool, o: bool, f2: bool, waiting: bool, m: Move)
    ensures m in ShapeMoves(b, f1, o, f2, waiting) <==>
      || (m == Move(F2, OUT) && f2 && (b == P1 || b == P4))
      || (m == Move(O, F2) && o && b != P2)
      || (m == Move(F1, O) && f1 && b != P2)
      || (m == Move(IN, F1) && waiting && (b == P3 || b == P4))
      || (m == Move(O, F1) && o && b == P2)
      || (m == Move(F2, O) && f2 && b == P2)
  {
  }

  lemma PatternAfter(b: Beat, f1: bool, o: bool, f2: bool, waiting: bool, after: set<Station>)
    requires Shape(b, f1, o, f2, waiting)
    requires after == if b == P2 then Occupied(o, f2, false) else Occupied(waiting && (b == P3 || b == P4), f1, o)
    ensures PostShift(ShapeMoves(b, f1, o, f2, waiting), after)
  {
    var moves := ShapeMoves(b, f1, o, f2, waiting);
    forall m ensures m in moves ==> (m.dst != OUT ==> m.dst in after) {
      InShape(b, f1, o, f2, waiting, m);
    }
    forall m | m in moves && m.src != IN && (forall n :: n in moves ==> n.dst != m.src) ensures m.src !in after {
      InShape(b, f1, o, f2, waiting, m);
      InShape(b, f1, o, f2, waiting, Move(IN, F1));
      InShape(b, f1, o, f2, waiting, Move(F1, O));
      InShape(b, f1, o, f2, waiting, Move(O, F2));
      InShape(b, f1, o, f2, waiting, Move(O, F1));
      InShape(b, f1, o, f2, waiting, Move(F2, O));
    }
  }

  /** A move whose end the picture before the shift gives away. */
  function Tell(b: Beat, f1: bool, o: bool, f2: bool, waiting: bool): Move {
    match b
    case P1 => if f1 then Move(F1, O) else if o then Move(O, F2) else Move(F2, OUT)
    case P2 => if o then Move(O, F1) else Move(F2, O)
    case P3 => if o then Move(O, F2) else Move(IN, F1)
    case P4 => if f1 && !waiting then Move(F1, O) else if o && !f1 then Move(O, F2)
      else if f2 && !o then Move(F2, OUT) else Move(F1, O)
  }

  lemma PatternBefore(b: Beat, f1: bool, o: bool, f2: bool, waiting: bool)
    requires Shape(b, f1, o, f2, waiting) && ShapeMoves(b, f1, o, f2, waiting) != []
    ensures PostShift(ShapeMoves(b, f1, o, f2, waiting), Occupied(f1, o, f2)) <==> b == P4 && f1 && o && f2 && waiting
  {
    var moves := ShapeMoves(b, f1, o, f2, waiting);
    forall m ensures m in moves <==>
      || (m == Move(F2, OUT) && f2 && (b == P1 || b == P4))
      || (m == Move(O, F2) && o && b != P2)
      || (m == Move(F1, O) && f1 && b != P2)
      || (m == Move(IN, F1) && waiting && (b == P3 || b == P4))
      || (m == Move(O, F1) && o && b == P2)
      || (m == Move(F2, O) && f2 && b == P2)
    {
      InShape(b, f1, o, f2, waiting, m);
    }
    if b == P4 && f1 && o && f2 && waiting {
      assert Move(IN, F1) in moves && Move(F1, O) in moves && Move(O, F2) in moves;
    } else {
      assert Tell(b, f1, o, f2, waiting) in moves;
    }
  }

  /** The pattern is true after every scheduled advance. Before it, it is false with one
      exception, the full line in steady state: there the picture before and after is
      the same, so the pattern alone cannot tell that the train has moved. */
  lemma PatternTells(all: seq<PartId>, cfg: Config, s: LineState)
    requires ReadyToAdvance(all, cfg, s) && LiveMoves(s) != []
    ensures PostShift(LiveMoves(s), LayoutOf(Advanced(s)).occupancy.Keys)
    ensures PostShift(LiveMoves(s), s.occupancy.Keys) <==>
      s.beat == P4 && F1 in s.occupancy && O in s.occupancy && F2 in s.occupancy && s.inQueue != []
  {
    ScheduledShifts(all, cfg, s);
    ScheduledShape(all, cfg, s);
    BelievedKeys(all, cfg, s);
    var f1, o, f2, waiting := F1 in s.occupancy, O in s.occupancy, F2 in s.occupancy, |s.inQueue| > 0;
    if s.beat == P2 {
      CarriedUp(o, f2);
    } else {
      ShapeSplits(s.beat, f1, o, f2, waiting);
      CarriedDown(f1, o, f2, waiting && (s.beat == P3 || s.beat == P4));
    }
    PatternAfter(s.beat, f1, o, f2, waiting, LayoutOf(Advanced(s)).occupancy.Keys);
    PatternBefore(s.beat, f1, o, f2, waiting);
  }

  // ---------------------------------------------------- the firmware's stops

  function Code(sensor: Sensor): nat {
    match sensor case F1Eye => 1 case OEye => 2 case F2Eye => 3 case Z1Eye => 4 case Z2Eye => 5
  }

  function Register(t: Target): nat {
    Code(t.sensor) + if t.falling then Firmware.FallingFlag else 0
  }

  function EyesOf(p: Picture): Firmware.EyeLevels {
    reg => if reg == 403 then F1 in p.occupied else if reg == 404 then O in p.occupied
           else if reg == 405 then F2 in p.occupied else if reg == 408 then p.z1Eye else reg == 407 && p.z2Eye
  }

  lemma ReadsTarget(t: Target, p: Picture)
    ensures Firmware.KnownSensor(Firmware.SensorOf(Register(t)))
    ensures Firmware.WantsRising(Register(t)) == !t.falling
    ensures EyesOf(p)(Firmware.TargetRegister(Register(t))) == Level(p, t.sensor)
  {
  }

  /** What the firmware reads at its i-th tick after the request: the old picture for
      `a` ticks, the gap for `g`, the new picture from then on. */
  function PictureAt(s: Scene, a: nat, g: nat, i: nat): Picture {
    if i < a then s.before else if i < a + g then s.gap else s.after
  }

  function AfterTicks(z: Firmware.Zone, c: Firmware.Command, s: Scene, a: nat, g: nat, k: nat): Firmware.Zone {
    if k == 0 then z
    else
      Firmware.TickZone(AfterTicks(z, c, s, a, g, k - 1), false, c, EyesOf(PictureAt(s, a, g, k - 1)), false)
  }

  /** Armed on this target, having last read this level. */
  predicate Watching(z: Firmware.Zone, c: Firmware.Command, t: Target, level: bool) {
    && z.edgeArmed && z.state == Firmware.StateMoving && z.lastReqId == c.reqId
    && z.sensor == Firmware.TargetRegister(Register(t)) && z.wantRising == !t.falling && z.prev == level
  }

  predicate Stopped(z: Firmware.Zone, c: Firmware.Command) {
    !z.edgeArmed && z.state == Firmware.StateReady && z.lastReqId == c.reqId
  }

  predicate Requests(z: Firmware.Zone, c: Firmware.Command, t: Target) {
    c.mode == Firmware.ModeSensorStop && c.target == Register(t) && c.reqId != z.lastReqId
  }

  lemma WatchTick(z: Firmware.Zone, c: Firmware.Command, t: Target, p: Picture, level: bool)
    requires c.mode == Firmware.ModeSensorStop && c.target == Register(t)
    ensures c.reqId != z.lastReqId ==> Watching(Firmware.TickZone(z, false, c, EyesOf(p), false), c, t, Level(p, t.sensor))
    ensures Watching(z, c, t, level) ==>
      var u := Firmware.TickZone(z, false, c, EyesOf(p), false);
      if Level(p, t.sensor) != level && Level(p, t.sensor) == !t.falling then Stopped(u, c)
      else Watching(u, c, t, Level(p, t.sensor))
    ensures Stopped(z, c) ==> Stopped(Firmware.TickZone(z, false, c, EyesOf(p), false), c)
  {
    ReadsTarget(t, p);
  }

  /** The tick at which the armed edge shows. */
  function StopTick(t: Target, a: nat, g: nat): nat {
    if t.falling then a else a + g
  }

  /** With the gap visible for at least one tick, the zone runs through every tick up
      to its edge and stands from then on: the edge fires exactly once, at the landing
      (or, with nothing to land, at the departure). */
  lemma {:induction false} StopsOnce(z: Firmware.Zone, c: Firmware.Command, t: Target, s: Scene, a: nat, g: nat, k: nat)
    requires Requests(z, c, t) && EdgeIsLast(t, s) && a >= 1 && g >= 1 && k >= 1
    ensures
      var u := AfterTicks(z, c, s, a, g, k);
      if k <= StopTick(t, a, g) then Watching(u, c, t, Level(PictureAt(s, a, g, k - 1), t.sensor)) else Stopped(u, c)
  {
    var before := AfterTicks(z, c, s, a, g, k - 1);
    if k == 1 {
      WatchTick(z, c, t, PictureAt(s, a, g, 0), false);
    } else {
      StopsOnce(z, c, t, s, a, g, k - 1);
      WatchTick(before, c, t, PictureAt(s, a, g, k - 1), Level(PictureAt(s, a, g, k - 2), t.sensor));
    }
  }

  /** Why the gap matters: at a station that is vacated and refilled with no tick
      between, the armed rise never shows and the belt never stops. */
  lemma {:induction false} NoGapNoStop(z: Firmware.Zone, c: Firmware.Command, t: Target, s: Scene, a: nat, k: nat)
    requires Requests(z, c, t) && EdgeIsLast(t, s) && !t.falling && Level(s.before, t.sensor) && a >= 1 && k >= 1
    ensures Watching(AfterTicks(z, c, s, a, 0, k), c, t, true)
  {
    var before := AfterTicks(z, c, s, a, 0, k - 1);
    if k == 1 {
      WatchTick(z, c, t, PictureAt(s, a, 0, 0), false);
    } else {
      NoGapNoStop(z, c, t, s, a, k - 1);
      WatchTick(before, c, t, PictureAt(s, a, 0, k - 1), true);
    }
  }
}
